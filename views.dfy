/** The subscriber's and the staff's views, as far as they decide
    something: which subscription a user works on, the pay step that
    queues it, the edit step that checks the data against the event's
    blacklist, the public availability figures, and the staff's verdict
    on a transaction or a manual entry. Rendering, request parsing and URL
    reversing are parameters. */
module Views {
  import opened Common
  import opened Models
  import opened Notify
  import opened Queue
  import opened Base
  import opened Utils
  import opened Forms
  import opened Deposit
  import Settle

  /** The names the views are reversed by. */
  const ViewName := "esupa-view"
  const EditName := "esupa-edit"
  const ListName := "esupa-check-docs"

  // ---------------------------------------------------------------- _get_subscription

  /** The events whose slug is `slug`. */
  function EventsWithSlug(db: Db, slug: string): (r: set<int>)
    ensures forall k :: k in r <==> k in db.events && db.events[k].slug == slug
  {
    set k | k in db.events && db.events[k].slug == slug
  }

  /** The stored subscriptions of `user` to event `eid`. */
  function SubsOf(db: Db, eid: int, user: int): (r: set<int>)
    ensures forall k :: k in r <==> k in db.subs && db.subs[k].event == eid && db.subs[k].user == Some(user)
  {
    set k | k in db.subs && db.subs[k].event == eid && db.subs[k].user == Some(user)
  }

  /** `Subscription(event=event, user=user)`: unsaved, every other column
      at its default. */
  function FreshSubscription(eid: int, user: int): (s: Subscription)
    ensures s.id.None? && s.event == eid && s.user == Some(user) && s.state == NEW
    ensures s.waitUntil.None? && s.position.None? && s.optionals == {} && !s.agreed
  {
    Subscription(None, eid, Some(user), NEW, None, "", "", "", "", "", None, {}, false, None)
  }

  /** `_get_subscription`: an unknown slug is a 404; the user's stored
      subscription to the event, or a fresh unsaved one when there is
      none; a denied subscription is refused. The lookups fail as
      `objects.get` does when more than one row matches. */
  function GetSubscription(db: Db, slug: string, user: int): (r: Result<Subscription>)
    ensures r == Err(Http404) <==> EventsWithSlug(db, slug) == {}
    ensures r.Ok? ==> (r.value.state != DENIED && r.value.user == Some(user) &&
                       EventsWithSlug(db, slug) == {r.value.event})
    ensures r.Ok? && SubsOf(db, r.value.event, user) == {} ==> r.value == FreshSubscription(r.value.event, user)
    ensures r.Ok? && SubsOf(db, r.value.event, user) != {} ==> exists k :: SubsOf(db, r.value.event, user) == {k} && r.value == db.subs[k]
    ensures r.Ok? && db.Valid() ==> (r.value.id.None? <==> SubsOf(db, r.value.event, user) == {})
    ensures r.Ok? && r.value.id.Some? && db.Valid() ==> r.value.id.value in db.subs && db.subs[r.value.id.value] == r.value
    ensures r == Err(PermissionDenied) <==>
      exists eid, k :: (EventsWithSlug(db, slug) == {eid} && SubsOf(db, eid, user) == {k} && db.subs[k].state == DENIED)
  {
    match LookupOne(EventsWithSlug(db, slug))
    case Absent => Err(Http404)
    case Several => Err(MultipleObjectsReturned)
    case Unique(eid) =>
      match LookupOne(SubsOf(db, eid, user))
      case Absent => Ok(FreshSubscription(eid, user))
      case Several => Err(MultipleObjectsReturned)
      case Unique(k) =>
        if db.subs[k].state == DENIED then Err(PermissionDenied) else Ok(db.subs[k])
  }

  // ---------------------------------------------------------------- view: the pay step

  /** What the view answers: a redirect, its own page, or the chosen
      method's `start_payment` for the subscription and the amount. */
  datatype Page =
    | Redirected(response: Response)
    | ViewPage
    | StartsPayment(chosen: PaymentClass, sub: Subscription, amount: int)

  /** The subscription as the pay step saves it: its index in the queue as
      position, the deadline started (when within capacity) or cleared,
      and its state raised to EXPECTING_PAY within capacity, to
      QUEUED_FOR_PAY beyond it. */
  function Queued(s: Subscription, pos: int, capacity: int, hours: int, now: int): (r: Subscription)
    ensures r == s.(position := Some(pos), waitUntil := r.waitUntil, state := r.state)
    ensures r.state >= s.state
    ensures pos < capacity ==> r.state >= EXPECTING_PAY && (Waiting(s, now) ==> r.waitUntil == s.waitUntil)
    ensures pos < capacity && !Waiting(s, now) ==> r.waitUntil == Some(now + hours * 3600)
    ensures pos >= capacity ==> r.state >= QUEUED_FOR_PAY && r.waitUntil.None?
  {
    var within := pos < capacity;
    var waited := SetWaiting(s.(position := Some(pos)), within, hours, now);
    RaiseState(waited, if within then EXPECTING_PAY else QUEUED_FOR_PAY).0
  }

  /** The queue half of the pay step: the saved subscription joins its
      event's queue and is saved again as `Queued` says; the answer tells
      whether its index is within the capacity. */
  method JoinQueue(store: Store, s: Subscription, now: int) returns (saved: Subscription, within: bool)
    requires store.db.Valid()
    requires s.id.Some? && s.id.value in store.db.subs && store.db.subs[s.id.value] == s
    modifies store
    ensures store.db.Valid()
    ensures var sid := s.id.value;
      var e := old(store.db).events[s.event];
      var pos := GhostAdd(QueueOf(old(store.db), s.event), sid);
      saved == Queued(s, pos, e.capacity, e.paymentWaitHours, now) && (within <==> pos < e.capacity) &&
      store.db == Settle.Enqueued(old(store.db), s.event, sid).(subs := old(store.db.subs)[sid := saved])
  {
    var sid := s.id.value;
    var e := store.db.events[s.event];
    ghost var before := store.db;
    Settle.QueueMovesKeepValid(before, s.event, sid);
    var queue := new QueueAgent(s, e);
    var pos := queue.Add(store);
    assert store.db == Settle.Enqueued(before, s.event, sid);
    ghost var enqueued := store.db;
    within := queue.WithinCapacity(store);
    var waited := SetWaiting(s.(position := Some(pos)), within, e.paymentWaitHours, now);
    var raised := RaiseState(waited, if within then EXPECTING_PAY else QUEUED_FOR_PAY);
    saved := store.SaveSubscription(raised.0);
    SubUpdateKeepsValid(enqueued, saved);
  }

  /** The pay step of `view` for a saved subscription: it joins the queue
      and is saved as `Queued` says; when its index is within the
      capacity the registered method with the code (a `KeyError` when
      none) starts the payment for the posted amount, or for what is owed
      when the amount does not parse (`amount` is `None`). */
  method PayStep(store: Store, registry: Registry, mods: seq<Module>, configured: set<string>,
                 s: Subscription, code: int, amount: Option<int>, now: int) returns (r: Result<Page>)
    requires store.db.Valid() && registry.Agrees()
    requires s.id.Some? && s.id.value in store.db.subs && store.db.subs[s.id.value] == s
    modifies store, registry
    ensures store.db.Valid() && registry.Agrees()
    ensures var sid := s.id.value;
      var e := old(store.db).events[s.event];
      var pos := GhostAdd(QueueOf(old(store.db), s.event), sid);
      var saved := Queued(s, pos, e.capacity, e.paymentWaitHours, now);
      store.db == Settle.Enqueued(old(store.db), s.event, sid).(subs := old(store.db.subs)[sid := saved]) &&
      (pos >= e.capacity ==> r == Ok(ViewPage)) &&
      (pos < e.capacity && code !in registry.methods ==> r == Err(KeyError)) &&
      (pos < e.capacity && code in registry.methods ==>
        r == Ok(StartsPayment(registry.methods[code], saved, if amount.Some? then amount.value else Owing(store.db, sid))))
  {
    var saved, within := JoinQueue(store, s, now);
    if !within {
      return Ok(ViewPage);
    }
    var cls := registry.GetPayment(code, mods, configured);
    if cls.Err? {
      return Err(cls.error);
    }
    var due := if amount.Some? then amount.value else Owing(store.db, s.id.value);
    return Ok(StartsPayment(cls.value, saved, due));
  }

  /** `view`: a subscription never saved is sent to the edit page; without
      `pay_with` the view page is shown, otherwise the pay step runs. The
      registry is loaded first, for the page's pay buttons. */
  method View(store: Store, registry: Registry, mods: seq<Module>, configured: set<string>,
              slug: string, user: int, payWith: Option<int>, amount: Option<int>, editUrl: string, now: int)
    returns (r: Result<Page>)
    requires store.db.Valid() && registry.Agrees()
    modifies store, registry
    ensures store.db.Valid() && registry.Agrees()
    ensures var g := GetSubscription(old(store.db), slug, user);
      (g.Err? ==> r == Err(g.error) && store.db == old(store.db)) &&
      (g.Ok? && g.value.id.None? ==> r == Ok(Redirected(PrgRedirect(EditName, editUrl))) && store.db == old(store.db)) &&
      (g.Ok? && g.value.id.Some? && payWith.None? ==> r == Ok(ViewPage) && store.db == old(store.db))
    ensures var g := GetSubscription(old(store.db), slug, user);
      g.Ok? && g.value.id.Some? && payWith.Some? ==>
        var s := g.value;
        var e := old(store.db).events[s.event];
        var pos := GhostAdd(QueueOf(old(store.db), s.event), s.id.value);
        s.id.value in store.db.subs && s.event in store.db.queues &&
        store.db.subs[s.id.value] == Queued(s, pos, e.capacity, e.paymentWaitHours, now) &&
        store.db.queues[s.event] == Appended(QueueOf(old(store.db), s.event), s.id.value) &&
        (pos >= e.capacity ==> r == Ok(ViewPage)) &&
        (pos < e.capacity ==> r.Ok? == (payWith.value in registry.methods))
  {
    var got := GetSubscription(store.db, slug, user);
    if got.Err? {
      return Err(got.error);
    }
    var s := got.value;
    if s.id.None? {
      return Ok(Redirected(PrgRedirect(EditName, editUrl)));
    }
    var names := registry.GetPaymentNames(mods, configured);
    if payWith.None? {
      return Ok(ViewPage);
    }
    r := PayStep(store, registry, mods, configured, s, payWith.value, amount, now);
  }

  // ---------------------------------------------------------------- edit: the data blacklist

  /** The characters `str.splitlines` breaks lines at. */
  const LineBreaks: set<char> := {'\n', '\r', '\U{b}', '\U{c}', '\U{1c}', '\U{1d}', '\U{1e}', '\U{85}', '\U{2028}', '\U{2029}'}

  /** The pieces of `s` between line-break characters. They differ from
      `str.splitlines` only by empty pieces (after a final break, or
      between the two characters of a "\r\n"), which the blacklist drops. */
  function Lines(s: string): (r: seq<string>)
    ensures |r| >= 1
    ensures forall i, c :: 0 <= i < |r| && c in r[i] ==> c !in LineBreaks
  {
    if s == [] then [""]
    else
      var rest := Lines(s[1..]);
      if s[0] in LineBreaks then [""] + rest
      else [[s[0]] + rest[0]] + rest[1..]
  }

  /** An occurrence in `s[1..]` is an occurrence in `s`, one further on. */
  lemma OccursShifted(t: string, s: string, j: int)
    requires s != [] && OccursAt(t, s[1..], j)
    ensures OccursAt(t, s, j + 1)
  {
    assert s[j + 1..j + 1 + |t|] == s[1..][j..j + |t|];
  }

  /** Every piece occurs in the text, the first one at its start. */
  lemma {:induction false} LinesOccur(s: string)
    ensures OccursAt(Lines(s)[0], s, 0)
    ensures forall i :: 0 <= i < |Lines(s)| ==> IsSubstring(Lines(s)[i], s)
  {
    var r := Lines(s);
    if s == [] {
      assert OccursAt(r[0], s, 0);
    } else {
      var rest := Lines(s[1..]);
      LinesOccur(s[1..]);
      forall i | 0 <= i < |rest|
        ensures IsSubstring(rest[i], s)
      {
        var j :| 0 <= j <= |s[1..]| - |rest[i]| && OccursAt(rest[i], s[1..], j);
        OccursShifted(rest[i], s, j);
      }
      if s[0] in LineBreaks {
        assert r == [""] + rest;
        assert OccursAt(r[0], s, 0);
        forall i | 0 <= i < |r|
          ensures IsSubstring(r[i], s)
        {
          if i == 0 {
            assert OccursAt(r[0], s, 0);
          } else {
            assert r[i] == rest[i - 1];
          }
        }
      } else {
        assert r == [[s[0]] + rest[0]] + rest[1..];
        assert s[..|r[0]|] == [s[0]] + s[1..][..|rest[0]|];
        assert OccursAt(r[0], s, 0);
        forall i | 0 <= i < |r|
          ensures IsSubstring(r[i], s)
        {
          if i == 0 {
            assert OccursAt(r[0], s, 0);
          } else {
            assert r[i] == rest[i];
          }
        }
      }
    }
  }

  /** `filter(bool, ...)` then `map(str.lower, ...)`: the non-empty pieces,
      lowercased, in order. */
  function LowerNonEmpty(ls: seq<string>): (r: seq<string>)
    ensures forall t :: t in r ==> t != "" && exists l :: l in ls && t == Lower(l)
  {
    if ls == [] then []
    else
      var rest := LowerNonEmpty(ls[1..]);
      assert forall l :: l in ls[1..] ==> l in ls;
      assert ls[0] in ls;
      if ls[0] == "" then rest else [Lower(ls[0])] + rest
  }

  /** Every non-empty piece gets in, lowercased. */
  lemma {:induction false} LowerNonEmptyKeeps(ls: seq<string>, i: int)
    requires 0 <= i < |ls| && ls[i] != ""
    ensures Lower(ls[i]) in LowerNonEmpty(ls)
  {
    if i > 0 {
      LowerNonEmptyKeeps(ls[1..], i - 1);
      assert ls[1..][i - 1] == ls[i];
    }
  }

  /** The terms the event's data is checked against. */
  function Blacklist(text: string): seq<string>
  {
    LowerNonEmpty(Lines(text))
  }

  /** Lowercasing a slice is slicing the lowercased text. */
  lemma LowerOccurs(t: string, s: string, j: int)
    requires OccursAt(t, s, j)
    ensures OccursAt(Lower(t), Lower(s), j)
  {
    assert Lower(s)[j..j + |t|] == Lower(t);
  }

  /** A blacklisted term is a non-empty stretch of the text without a line
      break, lowercased. */
  lemma TermFromText(text: string, t: string)
    requires t in Blacklist(text)
    ensures t != "" && (forall c :: c in t ==> c !in LineBreaks) && IsSubstring(t, Lower(text))
  {
    var ls := Lines(text);
    var l :| l in ls && t == Lower(l);
    var i :| 0 <= i < |ls| && ls[i] == l;
    LinesOccur(text);
    assert IsSubstring(ls[i], text);
    var j :| 0 <= j <= |text| - |l| && OccursAt(l, text, j);
    LowerOccurs(l, text, j);
    forall c | c in t
      ensures c !in LineBreaks
    {
      var n :| 0 <= n < |t| && t[n] == c;
      assert l[n] in ls[i];
      LowerKeepsText(l[n]);
    }
  }

  /** Lowercasing never makes a line break. */
  lemma LowerKeepsText(x: char)
    requires x !in LineBreaks
    ensures LowerChar(x) !in LineBreaks
  {
    if 'A' <= x <= 'Z' {
      assert 'a' <= LowerChar(x) <= 'z';
    } else if '\U{c0}' <= x <= '\U{de}' && x != '\U{d7}' {
      assert '\U{e0}' <= LowerChar(x) <= '\U{fe}';
    }
  }

  /** Every blacklisted term is a non-empty stretch of the text without a
      line break, lowercased. */
  lemma BlacklistFromText(text: string)
    ensures forall t :: t in Blacklist(text) ==>
      t != "" && (forall c :: c in t ==> c !in LineBreaks) && IsSubstring(t, Lower(text))
  {
    forall t | t in Blacklist(text)
      ensures t != "" && (forall c :: c in t ==> c !in LineBreaks) && IsSubstring(t, Lower(text))
    {
      TermFromText(text, t);
    }
  }

  /** The four columns that are checked, lowercased. */
  function Checked(s: Subscription): seq<string>
  {
    [Lower(s.fullName), Lower(s.email), Lower(s.document), Lower(s.badge)]
  }

  /** The data is acceptable when no blacklisted term occurs in any
      checked column. */
  predicate Acceptable(s: Subscription, e: Event)
  {
    forall t, d :: t in Blacklist(e.dataToBeChecked) && d in Checked(s) ==> !IsSubstring(t, d)
  }

  /** A line of the event's blacklist that occurs, ignoring case, in a
      checked column makes the data unacceptable. */
  lemma FlaggedLine(s: Subscription, e: Event, i: int, d: string)
    requires 0 <= i < |Lines(e.dataToBeChecked)| && Lines(e.dataToBeChecked)[i] != ""
    requires d in Checked(s) && IsSubstring(Lower(Lines(e.dataToBeChecked)[i]), d)
    ensures !Acceptable(s, e)
  {
    LowerNonEmptyKeeps(Lines(e.dataToBeChecked), i);
  }

  /** The state the edit step leaves: unacceptable data goes to
      VERIFYING_DATA; with something paid, nothing owed confirms, and a
      confirmed subscription owing money drops to PARTIALLY_PAID;
      otherwise the subscription is raised to ACCEPTABLE. */
  function EditedState(state: int, acceptable: bool, paidAny: bool, owing: int): (r: int)
    ensures !acceptable ==> r == VERIFYING_DATA
    ensures r < state ==> !acceptable || (paidAny && owing > 0 && state == CONFIRMED && r == PARTIALLY_PAID)
    ensures acceptable && !paidAny ==> r >= ACCEPTABLE
    ensures acceptable && paidAny && owing <= 0 ==> r >= CONFIRMED
  {
    if !acceptable then VERIFYING_DATA
    else if paidAny then
      if owing <= 0 then Max(state, CONFIRMED)
      else if state == CONFIRMED then PARTIALLY_PAID
      else state
    else Max(state, ACCEPTABLE)
  }

  /** Editing again with the same data and the same money does not move
      an acceptable subscription further. */
  lemma EditedStateSettles(state: int, paidAny: bool, owing: int)
    ensures var once := EditedState(state, true, paidAny, owing);
      EditedState(once, true, paidAny, owing) == once
  {
  }

  /** The subscription the edit step saves under id `k`: the form's data
      over it, and its state as `EditedState` says, judged against the
      event's blacklist and what it then owes. */
  function Edited(s: Subscription, d: SubscriptionData, paidAny: bool, k: int, e: Event, owing: int): (r: Subscription)
    ensures r == Apply(s, d).(id := Some(k), state := r.state)
    ensures r.state == EditedState(s.state, Acceptable(Apply(s, d), e), paidAny, owing)
  {
    var filled := Apply(s, d).(id := Some(k));
    assert Checked(filled) == Checked(Apply(s, d));
    filled.(state := EditedState(s.state, Acceptable(filled, e), paidAny, owing))
  }

  /** What is owed depends on the event, the chosen optionals and the
      transactions, not on the state or the other columns. */
  lemma OwingIgnoresState(db: Db, db': Db, k: int)
    requires k in db.subs && k in db'.subs && db.subs[k].event in db.events
    requires db'.events == db.events && db'.optionals == db.optionals && db'.trans == db.trans
    requires db'.subs[k].event == db.subs[k].event && db'.subs[k].optionals == db.subs[k].optionals
    ensures Owing(db', k) == Owing(db, k)
  {
    assert OptionalPrices(db', db'.subs[k]) == OptionalPrices(db, db.subs[k]);
    assert PaidAmounts(db', k) == PaidAmounts(db, k);
  }

  /** Saving a row twice leaves what the second save wrote. */
  lemma RowSavedTwice(db: Db, k: int, first: Subscription, second: Subscription)
    ensures db.(subs := db.subs[k := first]).(subs := db.subs[k := first][k := second]) == db.(subs := db.subs[k := second])
  {
    assert db.subs[k := first][k := second] == db.subs[k := second];
  }

  /** The saving half of `edit`: the form's data is saved, the state moved
      as `EditedState` says and saved again, and the `saved` notice (with
      the state before) sent. */
  method SaveEdit(store: Store, outbox: Outbox, s: Subscription, d: SubscriptionData, paidAny: bool)
    returns (k: int)
    requires store.db.Valid() && s.event in store.db.events
    requires s.id.Some? ==> s.id.value in store.db.subs
    modifies store, outbox
    ensures store.db.Valid() && store.db.events == old(store.db.events)
    ensures k in store.db.subs && store.db.subs[k].event == s.event
    ensures s.id.Some? ==> k == s.id.value
    ensures s.id.None? ==> k !in old(store.db.subs)
    ensures store.db == old(store.db).(subs := old(store.db.subs)[k :=
      Edited(s, d, paidAny, k, old(store.db).events[s.event], Owing(store.db, k))])
    ensures outbox.sent == old(outbox.sent) + [Saved(k, s.state)]
  {
    var e := store.db.events[s.event];
    ghost var before := store.db;
    var filled := store.SaveSubscription(Apply(s, d));
    k := filled.id.value;
    ghost var judged := store.db;
    SubUpdateKeepsValid(before, filled);
    var owing := Owing(store.db, k);
    var state := EditedState(s.state, Acceptable(filled, e), paidAny, owing);
    var saved := store.SaveSubscription(filled.(state := state));
    assert saved == Edited(s, d, paidAny, k, e, owing);
    RowSavedTwice(before, k, filled, saved);
    assert store.db == before.(subs := before.subs[k := saved]);
    SubUpdateKeepsValid(before, saved);
    OwingIgnoresState(judged, store.db, k);
    outbox.Send(Saved(k, s.state));
  }

  /** `edit`: the subscription as `_get_subscription` gives it; building
      the form needs the latest birth date allowed (a `ValueError` when
      there is none); a form that is not posted, or not valid, or whose
      birth date is too late, is shown again; otherwise the edit is saved
      and the user redirected to the view page. `fieldsValid` is the
      verdict of every other field's validation; `paidAny` stands for the
      subscription's `paid_any`, which the model class never defines. */
  method Edit(store: Store, outbox: Outbox, slug: string, user: int, posted: Option<SubscriptionData>,
              fieldsValid: bool, paidAny: bool, today: Date, viewUrl: string) returns (r: Result<Response>)
    requires store.db.Valid()
    modifies store, outbox
    ensures store.db.Valid()
    ensures r.Err? || (r.Ok? && r.value.Rendered?) ==> store.db == old(store.db) && outbox.sent == old(outbox.sent)
    ensures var g := GetSubscription(old(store.db), slug, user);
      (g.Err? ==> r == Err(g.error)) &&
      (g.Ok? ==> var e := old(store.db).events[g.value.event];
        (MaxBorn(e, today).Err? ==> r == Err(ValueError)) &&
        (MaxBorn(e, today).Ok? ==>
          (r.Ok? && r.value.Redirect? <==> posted.Some? && fieldsValid && CleanBorn(posted.value.born, MaxBorn(e, today).value).Ok?) &&
          (r.Ok? && !r.value.Redirect? ==> r == Ok(Rendered("esupa/edit.html")))))
    ensures var g := GetSubscription(old(store.db), slug, user);
      r.Ok? && r.value.Redirect? ==>
        g.Ok? && posted.Some? && r.value == PrgRedirect(ViewName, viewUrl) &&
        |outbox.sent| == |old(outbox.sent)| + 1 && outbox.sent[|outbox.sent| - 1].Saved? &&
        var k := outbox.sent[|outbox.sent| - 1].sub;
        outbox.sent == old(outbox.sent) + [Saved(k, g.value.state)] &&
        store.db.events == old(store.db.events) && k in store.db.subs && store.db.subs[k].event == g.value.event &&
        (g.value.id.Some? ==> k == g.value.id.value) && (g.value.id.None? ==> k !in old(store.db.subs)) &&
        store.db == old(store.db).(subs := old(store.db.subs)[k :=
          Edited(g.value, posted.value, paidAny, k, old(store.db).events[g.value.event], Owing(store.db, k))])
  {
    var got := GetSubscription(store.db, slug, user);
    if got.Err? {
      return Err(got.error);
    }
    var s := got.value;
    var e := store.db.events[s.event];
    var maxBorn := MaxBorn(e, today);
    if maxBorn.Err? {
      return Err(ValueError);
    }
    if posted.None? || !fieldsValid || CleanBorn(posted.value.born, maxBorn.value).Err? {
      return Ok(Rendered("esupa/edit.html"));
    }
    var k := SaveEdit(store, outbox, s, posted.value, paidAny);
    return Ok(PrgRedirect(ViewName, viewUrl));
  }

  // ---------------------------------------------------------------- _json_state

  /** An availability figure as the JSON answer shows it: the number
      itself, or (with a reveal threshold) its text, capped. */
  datatype Shown = Number(n: int) | Figure(text: string)

  /** The JSON answer about an event. */
  datatype JsonState =
    | Unknown(slug: string)
    | Known(slug: string, id: int, registrationOpen: bool, salesOpen: bool, potentially: Shown, currently: Shown)

  /** The openings counting only confirmed subscriptions, and those
      counting pending ones too, never below zero. */
  function Availability(db: Db, eid: int): (r: (int, int))
    requires eid in db.events
    ensures 0 <= r.1 <= r.0
    ensures r.0 <= Max(0, db.events[eid].capacity)
  {
    var potentially := Max(0, db.events[eid].capacity - NumConfirmed(db, eid));
    (potentially, Max(0, potentially - NumPending(db, eid)))
  }

  /** The openings counting pending subscriptions are the event's
      openings, or zero when those are negative. */
  lemma CurrentlyIsOpenings(db: Db, eid: int)
    requires eid in db.events
    ensures Availability(db, eid).1 == Max(0, NumOpenings(db, eid))
  {
    OpeningsPartition(db, eid);
  }

  /** With a positive threshold, a figure above it shows as the threshold
      followed by "+", any other as its decimal text. */
  function Reveal(count: int, threshold: int): Shown
  {
    if threshold > 0 then
      Figure(if count > threshold then NatToString(threshold) + "+" else IntToString(count))
    else Number(count)
  }

  /** A revealed figure reads back: a capped one ends in "+" after the
      threshold's digits, an exact one is the figure's digits. */
  lemma RevealReadsBack(count: nat, threshold: int)
    requires threshold > 0
    ensures var r := Reveal(count, threshold);
      r.Figure? && |r.text| >= 1 &&
      (count > threshold <==> r.text[|r.text| - 1] == '+') &&
      (count > threshold ==> DigitsValue(r.text[..|r.text| - 1]) == threshold) &&
      (count <= threshold ==> DigitsValue(r.text) == count)
  {
    var r := Reveal(count, threshold);
    if count > threshold {
      assert r.text[..|r.text| - 1] == NatToString(threshold);
      NatToStringRoundTrip(threshold);
    } else {
      NatToStringRoundTrip(count);
      assert IsDigit(r.text[|r.text| - 1]);
    }
  }

  /** `_json_state`: an unknown slug is answered as such; otherwise the
      event's id, its two open flags, and both availability figures,
      revealed against the event's threshold. */
  function JsonStateOf(db: Db, slug: string): (r: Result<JsonState>)
    ensures r == Ok(Unknown(slug)) <==> EventsWithSlug(db, slug) == {}
    ensures r.Err? <==> |EventsWithSlug(db, slug)| > 1
    ensures r.Ok? && r.value.Known? ==> EventsWithSlug(db, slug) == {r.value.id} && r.value.id in db.events
    ensures r.Ok? && r.value.Known? ==>
      var eid := r.value.id;
      var e := db.events[eid];
      r.value.slug == slug && e.slug == slug &&
      r.value.registrationOpen == e.subsOpen && r.value.salesOpen == e.salesOpen &&
      r.value.potentially == Reveal(Availability(db, eid).0, e.revealOpeningsUnder) &&
      r.value.currently == Reveal(Availability(db, eid).1, e.revealOpeningsUnder)
  {
    match LookupOne(EventsWithSlug(db, slug))
    case Absent => Ok(Unknown(slug))
    case Several => Err(MultipleObjectsReturned)
    case Unique(eid) =>
      assert eid in EventsWithSlug(db, slug);
      var e := db.events[eid];
      var (potentially, currently) := Availability(db, eid);
      Ok(Known(slug, eid, e.subsOpen, e.salesOpen,
               Reveal(potentially, e.revealOpeningsUnder), Reveal(currently, e.revealOpeningsUnder)))
  }

  // ---------------------------------------------------------------- TransactionList.post

  /** The staff's verdict on transaction `tid` of subscription `sid`: it
      must be one of the subscription's, and is ended accepted exactly
      when the word is "yes". The verifier is set on the object after the
      save, so it is never stored. */
  method Decide(store: Store, sid: int, tid: int, decision: string, now: int, listUrl: string)
    returns (r: Result<Response>)
    requires store.db.Valid()
    modifies store
    ensures store.db.Valid()
    ensures tid !in old(store.db.trans) || old(store.db.trans[tid]).sub != Some(sid) ==>
      r == Err(DoesNotExist) && store.db == old(store.db)
    ensures tid in old(store.db.trans) && old(store.db.trans[tid]).sub == Some(sid) ==>
      r == Ok(PrgRedirect(ListName, listUrl)) &&
      store.db == End(old(store.db), old(store.db.trans[tid]), decision == "yes", now).db &&
      store.db.trans[tid].accepted == (decision == "yes") &&
      store.db.trans[tid].verifier == old(store.db.trans[tid]).verifier
  {
    if tid !in store.db.trans || store.db.trans[tid].sub != Some(sid) {
      return Err(DoesNotExist);
    }
    Settle.StoredTransaction(store.db, tid);
    var t := store.db.trans[tid];
    EndKeepsValid(store.db, t, decision == "yes", now);
    var closed, s, changed := store.EndTransaction(t, decision == "yes", now);
    return Ok(PrgRedirect(ListName, listUrl));
  }

  /** A valid manual entry: the amount, the instant it was made, an
      optional attachment and the notes. */
  datatype ManualEntry = ManualEntry(amount: int, when: int, attachment: Option<Upload>, notes: string)

  /** The unsaved transaction a manual entry builds: a deposit (method 1)
      filled at the entry's instant and recorded by the staff member. */
  function ManualRow(sid: int, m: ManualEntry, staff: int): (t: Transaction)
    ensures t.id.None? && t.sub == Some(sid) && t.payMethod == Deposit.Code && t.amount == m.amount
    ensures t.filledAt == Some(m.when) && t.endedAt.None? && t.verifier == Some(staff) && t.notes == m.notes
    ensures m.attachment.None? ==> t.document.None? && t.mimetype == ""
    ensures m.attachment.Some? ==>
      t.document == Some(m.attachment.value.content) &&
      t.mimetype == (if m.attachment.value.contentType != "" then m.attachment.value.contentType else DefaultMimetype)
  {
    var t := NewTransaction(Some(sid), 0).(amount := m.amount, payMethod := 1);
    var t := if m.attachment.Some? then
      t.(mimetype := if m.attachment.value.contentType != "" then m.attachment.value.contentType else DefaultMimetype,
         document := Some(m.attachment.value.content))
      else t;
    t.(filledAt := Some(m.when), verifier := Some(staff), notes := m.notes)
  }

  /** A manual entry for subscription `sid`: an invalid form shows the list
      again; otherwise the row is stored and ended accepted, so it counts
      as paid. For a subscription that does not exist the model takes the
      store to refuse the row, so nothing is stored and the call fails. */
  method Manual(store: Store, sid: int, entry: Option<ManualEntry>, staff: int, now: int, listUrl: string)
    returns (r: Result<Response>)
    requires store.db.Valid()
    modifies store
    ensures store.db.Valid()
    ensures entry.None? ==> r == Ok(Rendered("esupa/transaction_list.html")) && store.db == old(store.db)
    ensures entry.Some? && sid !in old(store.db.subs) ==> r == Err(DoesNotExist) && store.db == old(store.db)
    ensures entry.Some? && sid in old(store.db.subs) ==>
      r == Ok(PrgRedirect(ListName, listUrl)) &&
      exists k :: k !in old(store.db.trans) &&
        var row := ManualRow(sid, entry.value, staff).(id := Some(k));
        store.db == End(old(store.db).(trans := old(store.db.trans)[k := row]), row, true, now).db &&
        store.db.trans[k].accepted && store.db.trans[k].endedAt == Some(now) && store.db.trans[k].filledAt == Some(entry.value.when)
  {
    if entry.None? {
      return Ok(Rendered("esupa/transaction_list.html"));
    }
    if sid !in store.db.subs {
      return Err(DoesNotExist);
    }
    ghost var before := store.db;
    var t := store.SaveTransaction(ManualRow(sid, entry.value, staff));
    var k := t.id.value;
    assert t == ManualRow(sid, entry.value, staff).(id := Some(k));
    ghost var stored := store.db;
    assert stored == before.(trans := before.trans[k := t]);
    EndKeepsValid(store.db, t, true, now);
    var closed, s, changed := store.EndTransaction(t, true, now);
    assert store.db == End(stored, t, true, now).db;
    assert store.db.trans[k] == Closed(t, true, now);
    return Ok(PrgRedirect(ListName, listUrl));
  }
}
