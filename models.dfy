/** The persistent entities of the subscription system (events, optionals,
    subscriptions, payment transactions and the per-event admission queue),
    the subscription state ranks, and the rules that change a subscription:
    raising its state, its payment deadline, its money balance and the
    closing of a payment transaction.

    Rows are values kept in maps keyed by their primary key (`Db`); the
    database itself is the object that changes (`Store`). Instants are whole
    seconds, prices and amounts whole cents (two decimal places). */
module Models {
  import opened Common

  // ---------------------------------------------------------------- subscription states

  /** Subscription state ranks. The order of the numbers is the order of
      progress; the two negative ranks are outside the progression. */
  const NEW := 0
  const ACCEPTABLE := 11
  const QUEUED_FOR_PAY := 33
  const EXPECTING_PAY := 55
  const VERIFYING_PAY := 66
  const PARTIALLY_PAID := 77
  const UNPAID_STAFF := 88
  const CONFIRMED := 99
  const VERIFYING_DATA := -1
  const DENIED := -9

  /** The choices table: each rank with its display label, in declared order. */
  const StateChoices: seq<(int, string)> := [
    (NEW, "New"),
    (ACCEPTABLE, "Filled"),
    (QUEUED_FOR_PAY, "Queued for pay"),
    (EXPECTING_PAY, "Expecting payment"),
    (VERIFYING_PAY, "Verifying payment"),
    (PARTIALLY_PAID, "Partially paid"),
    (UNPAID_STAFF, "Unpaid staff"),
    (CONFIRMED, "Confirmed"),
    (VERIFYING_DATA, "Checking data"),
    (DENIED, "Rejected")
  ]

  /** A value given to an enumeration: a rank or a label. */
  datatype EnumValue = Key(key: int) | Label(text: string)

  /** `Enum.get`: the label of a rank, or the rank of a label, from the
      first row that matches; `None` when no row does. */
  function EnumGet(choices: seq<(int, string)>, v: EnumValue): (r: Option<EnumValue>)
    ensures v.Key? && r.Some? ==> r.value.Label? && (v.key, r.value.text) in choices
    ensures v.Label? && r.Some? ==> r.value.Key? && (r.value.key, v.text) in choices
    ensures r.None? <==> forall i :: 0 <= i < |choices| ==> !RowMatches(choices[i], v)
  {
    if choices == [] then None
    else
      var (key, desc) := choices[0];
      if v == Key(key) then Some(Label(desc))
      else if v == Label(desc) then Some(Key(key))
      else EnumGet(choices[1..], v)
  }

  predicate RowMatches(row: (int, string), v: EnumValue)
  {
    v == Key(row.0) || v == Label(row.1)
  }

  /** Neither a rank nor a label occurs twice in the table. */
  predicate UniqueRows(choices: seq<(int, string)>)
  {
    forall i, j :: 0 <= i < j < |choices| ==> choices[i].0 != choices[j].0 && choices[i].1 != choices[j].1
  }

  /** On a table without repeats, looking up a rank's label and then that
      label's rank gives the rank back, and the other way round. */
  lemma {:induction false} EnumGetRoundTrip(choices: seq<(int, string)>, i: int)
    requires UniqueRows(choices) && 0 <= i < |choices|
    ensures EnumGet(choices, Key(choices[i].0)) == Some(Label(choices[i].1))
    ensures EnumGet(choices, Label(choices[i].1)) == Some(Key(choices[i].0))
  {
    if i > 0 {
      EnumGetRoundTrip(choices[1..], i - 1);
    }
  }

  lemma StateChoicesUnique()
    ensures UniqueRows(StateChoices)
  {
  }

  /** `Enum.__init__`: the first row holding `v` (the first row of all when
      no value is given) as (rank, label); `ValueError` when none does. */
  function EnumInit(choices: seq<(int, string)>, v: Option<EnumValue>): (r: Result<(int, string)>)
    ensures r.Ok? ==> r.value in choices && (v.Some? ==> RowMatches(r.value, v.value))
    ensures v.None? ==> r == if choices == [] then Err(ValueError) else Ok(choices[0])
    ensures r.Err? <==> forall i :: 0 <= i < |choices| ==> !(v.None? || RowMatches(choices[i], v.value))
  {
    if choices == [] then Err(ValueError)
    else if v.None? || RowMatches(choices[0], v.value) then Ok(choices[0])
    else EnumInit(choices[1..], v)
  }

  /** Constructing from a rank and asking `get` for that rank agree on the label. */
  lemma {:induction false} EnumInitAgreesWithGet(choices: seq<(int, string)>, k: int)
    requires EnumInit(choices, Some(Key(k))).Ok?
    ensures EnumGet(choices, Key(k)) == Some(Label(EnumInit(choices, Some(Key(k))).value.1))
  {
    if choices != [] && !RowMatches(choices[0], Key(k)) {
      EnumInitAgreesWithGet(choices[1..], k);
    }
  }

  // ---------------------------------------------------------------- calendar

  datatype Date = Date(year: int, month: int, day: int)

  predicate IsLeap(y: int)
  {
    y % 4 == 0 && (y % 100 != 0 || y % 400 == 0)
  }

  function DaysIn(y: int, m: int): int
  {
    if m == 2 then (if IsLeap(y) then 29 else 28)
    else if m == 4 || m == 6 || m == 9 || m == 11 then 30
    else 31
  }

  /** A date Python's `date(...)` constructor accepts. */
  predicate ValidDate(d: Date)
  {
    1 <= d.year <= 9999 && 1 <= d.month <= 12 && 1 <= d.day <= DaysIn(d.year, d.month)
  }

  /** Calendar order. */
  predicate DateLeq(a: Date, b: Date)
  {
    a.year < b.year || (a.year == b.year && (a.month < b.month || (a.month == b.month && a.day <= b.day)))
  }

  // ---------------------------------------------------------------- rows

  /** An event. `startsAt` is the starting instant; `startDate` is the
      calendar date of that instant. `partialPaymentOpen` is read by the
      queue sweep but is no column of the event table. */
  datatype Event = Event(
    id: int, name: string, slug: string, agreementUrl: string,
    startsAt: int, startDate: Date, minAge: int, price: int, capacity: int,
    revealOpeningsUnder: int,
    subsOpen: bool, subsToggle: Option<int>, salesOpen: bool, salesToggle: Option<int>,
    depositInfo: string, paymentWaitHours: int, dataToBeChecked: string,
    partialPaymentOpen: bool)

  datatype Optional = Optional(id: int, event: int, name: string, price: int)

  /** A subscription; `id` is `None` until it is first saved. */
  datatype Subscription = Subscription(
    id: Option<int>, event: int, user: Option<int>, state: int, waitUntil: Option<int>,
    fullName: string, document: string, badge: string, email: string, phone: string,
    born: Option<Date>, optionals: set<int>, agreed: bool, position: Option<int>)

  /** A payment transaction; `id` is `None` until it is first saved. */
  datatype Transaction = Transaction(
    id: Option<int>, sub: Option<int>, amount: int, payMethod: int, remoteId: string,
    mimetype: string, document: Option<seq<bv8>>, filledAt: Option<int>,
    verifier: Option<int>, accepted: bool, notes: string, endedAt: Option<int>)

  /** A transaction as the model constructor builds it: every other column at its default. */
  function NewTransaction(sub: Option<int>, payMethod: int): (t: Transaction)
    ensures t.id.None? && t.sub == sub && t.payMethod == payMethod
    ensures !t.accepted && t.endedAt.None? && t.filledAt.None? && t.amount == 0
  {
    Transaction(None, sub, 0, payMethod, "", "", None, None, None, false, "", None)
  }

  /** The database: one map per table. `queues` holds each event's queue
      container, the list of subscription ids waiting for a payment slot. */
  datatype Db = Db(
    events: map<int, Event>, optionals: map<int, Optional>,
    subs: map<int, Subscription>, trans: map<int, Transaction>,
    queues: map<int, seq<int>>)
  {
    /** Keys are the rows' ids, foreign keys point at existing rows, event
        slugs are unique and no queue holds an id twice. */
    predicate Valid()
    {
      (forall k :: k in events ==> events[k].id == k) &&
      (forall k :: k in optionals ==> optionals[k].id == k && optionals[k].event in events) &&
      (forall k :: k in subs ==> subs[k].id == Some(k) && subs[k].event in events) &&
      (forall k :: k in trans ==> trans[k].id == Some(k) && trans[k].sub.Some? && trans[k].sub.value in subs) &&
      (forall e :: e in queues ==> e in events && NoDup(queues[e])) &&
      (forall a, b :: a in events && b in events && events[a].slug == events[b].slug ==> a == b)
    }
  }

  // ---------------------------------------------------------------- raise_state and waiting

  /** `raise_state`: the state moves to `target` exactly when that is a
      higher rank, and the answer says whether it moved. */
  function RaiseState(s: Subscription, target: int): (r: (Subscription, bool))
    ensures r.1 <==> s.state < target
    ensures r.0.state == (if s.state < target then target else s.state)
    ensures r.0 == s.(state := r.0.state)
  {
    if s.state < target then (s.(state := target), true) else (s, false)
  }

  /** Raising never lowers, and raising to the same target again changes nothing. */
  lemma RaiseStateMonotone(s: Subscription, target: int)
    ensures RaiseState(s, target).0.state >= s.state
    ensures RaiseState(s, target).0.state >= target
    ensures !RaiseState(RaiseState(s, target).0, target).1
  {
  }

  /** The `waiting` getter: true only once the deadline has passed. */
  predicate Waiting(s: Subscription, now: int)
  {
    s.waitUntil.Some? && s.waitUntil.value < now
  }

  /** The `waiting` setter. False clears the deadline; true starts a new one
      `hours` from now unless the getter already reads true. */
  function SetWaiting(s: Subscription, value: bool, hours: int, now: int): (r: Subscription)
    ensures r == s.(waitUntil := r.waitUntil)
    ensures !value ==> r.waitUntil.None?
    ensures value && !Waiting(s, now) ==> r.waitUntil == Some(now + hours * 3600)
    ensures value && Waiting(s, now) ==> r == s
  {
    if !value then s.(waitUntil := None)
    else if !Waiting(s, now) then s.(waitUntil := Some(now + hours * 3600))
    else s
  }

  /** A deadline that was just started does not read as waiting until it
      has passed, and setting true twice at one instant is the same as once
      only if the second call finds the getter true; otherwise the deadline
      is moved again. */
  lemma {:induction false} FreshDeadlineNotWaiting(s: Subscription, hours: int, now: int, later: int)
    requires hours >= 0 && now <= later <= now + hours * 3600
    ensures !Waiting(SetWaiting(s, true, hours, now), later) <==> !Waiting(s, now)
    ensures !Waiting(s, now) ==> SetWaiting(SetWaiting(s, true, hours, now), true, hours, later).waitUntil == Some(later + hours * 3600)
  {
    var r := SetWaiting(s, true, hours, now);
    if Waiting(s, now) {
      assert r == s;
      assert Waiting(r, later);
    } else {
      assert r.waitUntil == Some(now + hours * 3600);
      assert !Waiting(r, later);
    }
  }

  // ---------------------------------------------------------------- money

  function Max(a: int, b: int): int
  {
    if a < b then b else a
  }

  /** The sum of a map's values, in any order. */
  function Total(m: map<int, int>): int
    decreases |m|
  {
    if m == map[] then 0
    else
      var k := MinOf(m.Keys);
      assert |m - {k}| < |m| by { assert m.Keys - {k} < m.Keys; }
      m[k] + Total(m - {k})
  }

  /** Any entry can be taken out of the sum first. */
  lemma {:induction false} TotalRemove(m: map<int, int>, k: int)
    requires k in m
    ensures Total(m) == m[k] + Total(m - {k})
    decreases |m|
  {
    var j := MinOf(m.Keys);
    if j != k {
      var mj := m - {j};
      var mk := m - {k};
      assert |mj| < |m| by { assert mj.Keys < m.Keys; }
      assert |mk| < |m| by { assert mk.Keys < m.Keys; }
      TotalRemove(mj, k);
      TotalRemove(mk, j);
      assert mj - {k} == mk - {j};
    }
  }

  /** Adding a new entry adds its value to the sum. */
  lemma {:induction false} TotalAdd(m: map<int, int>, k: int, v: int)
    requires k !in m
    ensures Total(m[k := v]) == Total(m) + v
  {
    TotalRemove(m[k := v], k);
    assert m[k := v] - {k} == m;
  }

  /** Prices of the chosen optionals that exist. */
  function OptionalPrices(db: Db, s: Subscription): map<int, int>
  {
    map o | o in s.optionals && o in db.optionals :: db.optionals[o].price
  }

  /** `price`: the event's price plus the chosen optionals' prices. */
  function Price(db: Db, s: Subscription): int
    requires s.event in db.events
  {
    db.events[s.event].price + Total(OptionalPrices(db, s))
  }

  /** A transaction counts as paid when it is accepted and ended. */
  predicate Counts(t: Transaction, sid: int)
  {
    t.sub == Some(sid) && t.accepted && t.endedAt.Some?
  }

  function PaidAmounts(db: Db, sid: int): map<int, int>
  {
    map k | k in db.trans && Counts(db.trans[k], sid) :: db.trans[k].amount
  }

  /** `paid`: the sum of the amounts of the accepted, ended transactions. */
  function Paid(db: Db, sid: int): int
  {
    Total(PaidAmounts(db, sid))
  }

  /** `get_owing`: price minus what has been paid. */
  function Owing(db: Db, sid: int): int
    requires sid in db.subs && db.subs[sid].event in db.events
  {
    Price(db, db.subs[sid]) - Paid(db, sid)
  }

  /** Choosing one more optional raises the price by exactly its price. */
  lemma PriceAddOptional(db: Db, s: Subscription, o: int)
    requires s.event in db.events && o in db.optionals && o !in s.optionals
    ensures Price(db, s.(optionals := s.optionals + {o})) == Price(db, s) + db.optionals[o].price
  {
    var s' := s.(optionals := s.optionals + {o});
    assert OptionalPrices(db, s') == OptionalPrices(db, s)[o := db.optionals[o].price];
    TotalAdd(OptionalPrices(db, s), o, db.optionals[o].price);
  }

  /** Storing a transaction that now counts, in place of one that did not,
      lowers what is owed by exactly its amount. */
  lemma PaidGrowsByAmount(db: Db, sid: int, t: Transaction)
    requires t.id.Some? && Counts(t, sid)
    requires t.id.value !in db.trans || !Counts(db.trans[t.id.value], sid)
    ensures Paid(db.(trans := db.trans[t.id.value := t]), sid) == Paid(db, sid) + t.amount
  {
    var tid := t.id.value;
    var db' := db.(trans := db.trans[tid := t]);
    assert PaidAmounts(db', sid) == PaidAmounts(db, sid)[tid := t.amount];
    TotalAdd(PaidAmounts(db, sid), tid, t.amount);
  }

  // ---------------------------------------------------------------- events

  /** `Event.cron`: each flag flips, and its toggle is cleared, exactly when
      its toggle instant is set and strictly before `present`. */
  function EventCron(e: Event, present: int): (r: Event)
    ensures r == e.(subsOpen := r.subsOpen, subsToggle := r.subsToggle, salesOpen := r.salesOpen, salesToggle := r.salesToggle)
    ensures Fires(e.subsToggle, present) ==> r.subsToggle.None? && r.subsOpen == !e.subsOpen
    ensures !Fires(e.subsToggle, present) ==> r.subsToggle == e.subsToggle && r.subsOpen == e.subsOpen
    ensures Fires(e.salesToggle, present) ==> r.salesToggle.None? && r.salesOpen == !e.salesOpen
    ensures !Fires(e.salesToggle, present) ==> r.salesToggle == e.salesToggle && r.salesOpen == e.salesOpen
  {
    var e1 := if Fires(e.subsToggle, present) then e.(subsToggle := None, subsOpen := !e.subsOpen) else e;
    if Fires(e1.salesToggle, present) then e1.(salesToggle := None, salesOpen := !e1.salesOpen) else e1
  }

  predicate Fires(toggle: Option<int>, present: int)
  {
    toggle.Some? && toggle.value < present
  }

  /** A second run at the same or an earlier instant changes nothing: a
      toggle fires once. */
  lemma EventCronIdempotent(e: Event, present: int, again: int)
    requires again <= present
    ensures EventCron(EventCron(e, present), again) == EventCron(e, present)
  {
  }

  /** Ids of an event's subscriptions whose state satisfies a band. */
  function SubsWhere(db: Db, eid: int, lo: int, hi: int): set<int>
  {
    set k | k in db.subs && db.subs[k].event == eid && lo <= db.subs[k].state < hi
  }

  /** `num_confirmed`: state at least UNPAID_STAFF. */
  function NumConfirmed(db: Db, eid: int): nat
  {
    |set k | k in db.subs && db.subs[k].event == eid && db.subs[k].state >= UNPAID_STAFF|
  }

  /** `num_pending`: state strictly between ACCEPTABLE and UNPAID_STAFF. */
  function NumPending(db: Db, eid: int): nat
  {
    |set k | k in db.subs && db.subs[k].event == eid && ACCEPTABLE < db.subs[k].state < UNPAID_STAFF|
  }

  /** `num_openings`: capacity less every subscription above ACCEPTABLE. */
  function NumOpenings(db: Db, eid: int): int
    requires eid in db.events
  {
    db.events[eid].capacity - |set k | k in db.subs && db.subs[k].event == eid && db.subs[k].state > ACCEPTABLE|
  }

  /** The openings are the capacity less the confirmed and the pending ones,
      which never overlap. */
  lemma OpeningsPartition(db: Db, eid: int)
    requires eid in db.events
    ensures NumOpenings(db, eid) == db.events[eid].capacity - NumConfirmed(db, eid) - NumPending(db, eid)
  {
    var conf := set k | k in db.subs && db.subs[k].event == eid && db.subs[k].state >= UNPAID_STAFF;
    var pend := set k | k in db.subs && db.subs[k].event == eid && ACCEPTABLE < db.subs[k].state < UNPAID_STAFF;
    var above := set k | k in db.subs && db.subs[k].event == eid && db.subs[k].state > ACCEPTABLE;
    assert above == conf + pend;
    assert conf * pend == {};
  }

  /** A subscription with a negative rank is counted neither as confirmed
      nor as pending, nor does it take an opening. */
  lemma NegativeStatesUncounted(db: Db, eid: int, sid: int)
    requires eid in db.events && sid in db.subs && db.subs[sid].event == eid && db.subs[sid].state < 0
    ensures NumConfirmed(db, eid) == NumConfirmed(db.(subs := db.subs - {sid}), eid)
    ensures NumPending(db, eid) == NumPending(db.(subs := db.subs - {sid}), eid)
    ensures NumOpenings(db, eid) == NumOpenings(db.(subs := db.subs - {sid}), eid)
  {
    var db' := db.(subs := db.subs - {sid});
    assert (set k | k in db.subs && db.subs[k].event == eid && db.subs[k].state >= UNPAID_STAFF)
        == (set k | k in db'.subs && db'.subs[k].event == eid && db'.subs[k].state >= UNPAID_STAFF);
    assert (set k | k in db.subs && db.subs[k].event == eid && ACCEPTABLE < db.subs[k].state < UNPAID_STAFF)
        == (set k | k in db'.subs && db'.subs[k].event == eid && ACCEPTABLE < db'.subs[k].state < UNPAID_STAFF);
    assert (set k | k in db.subs && db.subs[k].event == eid && db.subs[k].state > ACCEPTABLE)
        == (set k | k in db'.subs && db'.subs[k].event == eid && db'.subs[k].state > ACCEPTABLE);
  }

  /** `max_born`: the latest birth date old enough for the event: the event
      date moved back `minAge` years, or `today` when there is no minimum
      age. `ValueError` when that date does not exist (29 February of a
      common year, or a year out of range). */
  function MaxBorn(e: Event, today: Date): (r: Result<Date>)
    ensures e.minAge == 0 ==> r == Ok(today)
    ensures e.minAge != 0 && r.Ok? ==> ValidDate(r.value) && r.value == e.startDate.(year := e.startDate.year - e.minAge)
    ensures e.minAge != 0 && r.Err? ==> !ValidDate(e.startDate.(year := e.startDate.year - e.minAge)) && r.error == ValueError
  {
    if e.minAge != 0 then
      var d := Date(e.startDate.year - e.minAge, e.startDate.month, e.startDate.day);
      if ValidDate(d) then Ok(d) else Err(ValueError)
    else Ok(today)
  }

  /** For a real event date, moving back a number of years fails only on
      29 February landing in a common year, or on leaving the year range. */
  lemma MaxBornFailsOnlyOnLeapDay(e: Event, today: Date)
    requires ValidDate(e.startDate) && e.minAge != 0 && 1 <= e.startDate.year - e.minAge <= 9999
    ensures MaxBorn(e, today).Err? <==> e.startDate.month == 2 && e.startDate.day == 29 && !IsLeap(e.startDate.year - e.minAge)
  {
  }

  /** `age_at_event`: whole years from birth to the event date; `None`
      without a birth date. */
  function AgeAtEvent(born: Option<Date>, at: Date): (r: Option<int>)
    ensures r.None? <==> born.None?
  {
    if born.None? then None
    else
      var b := born.value;
      var age := at.year - b.year;
      if (if b.month != at.month then b.month < at.month else b.day <= at.day) then Some(age)
      else Some(age - 1)
  }

  /** The age is the number of birthdays reached by the event date: the
      birthday of that age is on or before the date, the next one is after. */
  lemma AgeIsBirthdaysReached(b: Date, at: Date)
    ensures var a := AgeAtEvent(Some(b), at).value;
      DateLeq(b.(year := b.year + a), at) && !DateLeq(b.(year := b.year + a + 1), at)
  {
  }

  /** Born on or before `max_born` means old enough at the event. */
  lemma MaxBornMeansOldEnough(e: Event, today: Date, b: Date)
    requires e.minAge != 0 && MaxBorn(e, today).Ok? && DateLeq(b, MaxBorn(e, today).value)
    ensures AgeAtEvent(Some(b), e.startDate).value >= e.minAge
  {
    AgeIsBirthdaysReached(b, e.startDate);
  }

  /** The slugs that would clash with the fixed routes. */
  const SlugBlacklist: seq<string> := ["pay", "doc", "cron", "check"]

  const SlugClash := "To avoid name clashes, these slugs are not allowed: "

  /** `slug_blacklist_validator`: refuses exactly the blacklisted slugs,
      naming all of them in the message. */
  function SlugBlacklistValidator(target: string): (r: Outcome)
    ensures r.Fail? <==> target in SlugBlacklist
    ensures r.Fail? ==> r.error == ValidationError("", SlugClash + "pay, doc, cron, check")
  {
    if target in SlugBlacklist then
      SlugListJoined();
      Fail(ValidationError("", SlugClash + Join(", ", SlugBlacklist)))
    else Pass
  }

  /** The blacklist joined by commas, as the message shows it. */
  lemma SlugListJoined()
    ensures Join(", ", SlugBlacklist) == "pay, doc, cron, check"
  {
    var tail := SlugBlacklist[1..];
    assert tail == ["doc", "cron", "check"];
    assert tail[1..] == ["cron", "check"];
    assert tail[1..][1..] == ["check"];
    assert Join(", ", tail[1..][1..]) == "check";
    assert Join(", ", tail[1..]) == "cron" + ", " + "check";
    assert Join(", ", tail) == "doc" + ", " + "cron, check";
    assert Join(", ", SlugBlacklist) == "pay" + ", " + "doc, cron, check";
  }

  // ---------------------------------------------------------------- closing a transaction

  /** The transaction fields `end` assigns: the outcome, the end instant if
      unset, and the filled instant (the end instant) if unset. */
  function Closed(t: Transaction, ok: bool, now: int): (r: Transaction)
    ensures r == t.(accepted := ok, endedAt := r.endedAt, filledAt := r.filledAt)
    ensures r.accepted == ok && r.endedAt.Some? && r.filledAt.Some?
    ensures r.endedAt == if t.endedAt.Some? then t.endedAt else Some(now)
    ensures r.filledAt == if t.filledAt.Some? then t.filledAt else r.endedAt
  {
    var ended := if t.endedAt.None? then Some(now) else t.endedAt;
    var filled := if t.filledAt.None? then ended else t.filledAt;
    t.(accepted := ok, endedAt := ended, filledAt := filled)
  }

  /** Some transaction of the subscription with the given method is still open. */
  predicate OpenOfMethod(db: Db, sid: int, payMethod: int)
  {
    exists k :: k in db.trans && OpenFor(db.trans[k], sid, payMethod)
  }

  predicate OpenFor(t: Transaction, sid: int, payMethod: int)
  {
    t.sub == Some(sid) && t.endedAt.None? && t.payMethod == payMethod
  }

  /** What `end` leaves behind: the database, the closed transaction, the
      subscription as it now stands, and whether its state changed. */
  datatype Ending = Ending(db: Db, txn: Transaction, sub: Subscription, changed: bool)

  /** The rank an accepted payment aims for: confirmed when nothing (not
      even a negative amount) is owed, partially paid otherwise. */
  function PaidTarget(owing: int): int
  {
    if owing != 0 then PARTIALLY_PAID else CONFIRMED
  }

  /** `Transaction.end`, the transition that closes a payment. The closed
      transaction is stored first; the subscription is then judged against
      the stored rows. */
  function End(db: Db, t: Transaction, ok: bool, now: int): (r: Ending)
    requires t.id.Some? && t.sub.Some? && t.sub.value in db.subs && db.subs[t.sub.value].event in db.events
    ensures r.txn == Closed(t, ok, now)
    ensures r.db == db.(trans := db.trans[t.id.value := r.txn], subs := db.subs[t.sub.value := r.sub])
    ensures r.sub == db.subs[t.sub.value].(state := r.sub.state, position := r.sub.position, waitUntil := r.sub.waitUntil)
  {
    var t1 := Closed(t, ok, now);
    var sid := t.sub.value;
    var db1 := db.(trans := db.trans[t.id.value := t1]);
    var s := db1.subs[sid];
    if s.state >= CONFIRMED then Ending(db1, t1, s, false)
    else if ok then
      var (s', changed) := RaiseState(s, PaidTarget(Owing(db1, sid)));
      Ending(db1.(subs := db1.subs[sid := s']), t1, s', changed)
    else if s.state >= PARTIALLY_PAID || OpenOfMethod(db1, sid, t.payMethod) then Ending(db1, t1, s, false)
    else
      var s' := s.(state := ACCEPTABLE, position := None, waitUntil := None);
      Ending(db1.(subs := db1.subs[sid := s']), t1, s', true)
  }

  /** The database once `t` is stored closed: what `end` judges the
      subscription against. */
  function AfterClose(db: Db, t: Transaction, ok: bool, now: int): Db
    requires t.id.Some?
  {
    db.(trans := db.trans[t.id.value := Closed(t, ok, now)])
  }

  /** A confirmed (or higher) subscription is never touched. */
  lemma EndLeavesConfirmed(db: Db, t: Transaction, ok: bool, now: int)
    requires t.id.Some? && t.sub.Some? && t.sub.value in db.subs && db.subs[t.sub.value].event in db.events
    requires db.subs[t.sub.value].state >= CONFIRMED
    ensures var r := End(db, t, ok, now); !r.changed && r.sub == db.subs[t.sub.value]
  {
  }

  /** Accepting raises the state to the paid target and never lowers it; the
      answer is whether it rose. */
  lemma EndAcceptRaises(db: Db, t: Transaction, now: int)
    requires t.id.Some? && t.sub.Some? && t.sub.value in db.subs && db.subs[t.sub.value].event in db.events
    requires db.subs[t.sub.value].state < CONFIRMED
    ensures var r := End(db, t, true, now);
      var old_ := db.subs[t.sub.value].state;
      var target := PaidTarget(Owing(AfterClose(db, t, true, now), t.sub.value));
      r.sub.state == Max(old_, target) && (r.changed <==> old_ < target) &&
      r.sub.position == db.subs[t.sub.value].position && r.sub.waitUntil == db.subs[t.sub.value].waitUntil
  {
  }

  /** A rejection releases the subscription back to ACCEPTABLE (off the
      queue, no deadline) exactly when it is below PARTIALLY_PAID and no
      other transaction of the same method is still open; otherwise
      nothing about the subscription changes. */
  lemma EndRejectReleases(db: Db, t: Transaction, now: int)
    requires t.id.Some? && t.sub.Some? && t.sub.value in db.subs && db.subs[t.sub.value].event in db.events
    ensures var r := End(db, t, false, now);
      var s := db.subs[t.sub.value];
      var release := s.state < PARTIALLY_PAID && !OpenOfMethod(AfterClose(db, t, false, now), t.sub.value, t.payMethod);
      (r.changed <==> release) &&
      (release ==> r.sub.state == ACCEPTABLE && r.sub.position.None? && r.sub.waitUntil.None?) &&
      (!release ==> r.sub == s)
  {
  }

  /** The state only ever goes down through a released rejection. */
  lemma EndLowersOnlyByRelease(db: Db, t: Transaction, ok: bool, now: int)
    requires t.id.Some? && t.sub.Some? && t.sub.value in db.subs && db.subs[t.sub.value].event in db.events
    ensures var r := End(db, t, ok, now);
      r.sub.state < db.subs[t.sub.value].state ==> !ok && r.changed && r.sub.state == ACCEPTABLE
  {
  }

  /** An overpayment (negative amount owed) still counts as owing: the
      subscription goes to PARTIALLY_PAID, not CONFIRMED. */
  lemma OverpaymentIsPartial(db: Db, t: Transaction, now: int)
    requires t.id.Some? && t.sub.Some? && t.sub.value in db.subs && db.subs[t.sub.value].event in db.events
    requires db.subs[t.sub.value].state < PARTIALLY_PAID
    requires Owing(AfterClose(db, t, true, now), t.sub.value) < 0
    ensures End(db, t, true, now).sub.state == PARTIALLY_PAID && End(db, t, true, now).changed
  {
  }

  /** Accepting a transaction that was not yet counted lowers what is owed
      by its amount. */
  lemma EndAcceptPays(db: Db, t: Transaction, now: int)
    requires t.id.Some? && t.sub.Some? && t.sub.value in db.subs && db.subs[t.sub.value].event in db.events
    requires t.id.value !in db.trans || !Counts(db.trans[t.id.value], t.sub.value)
    ensures var r := End(db, t, true, now);
      Owing(r.db, t.sub.value) == Owing(db, t.sub.value) - t.amount
  {
    var sid := t.sub.value;
    var r := End(db, t, true, now);
    var t1 := Closed(t, true, now);
    var db1 := AfterClose(db, t, true, now);
    PaidGrowsByAmount(db, sid, t1);
    assert PaidAmounts(r.db, sid) == PaidAmounts(db1, sid);
    assert OptionalPrices(r.db, r.db.subs[sid]) == OptionalPrices(db, db.subs[sid]);
  }

  /** A second acceptance of the same transaction (a redelivered
      notification) reports no change and leaves the database as it was. */
  lemma AcceptRedeliveryIsNoop(db: Db, t: Transaction, now: int, later: int)
    requires t.id.Some? && t.sub.Some? && t.sub.value in db.subs && db.subs[t.sub.value].event in db.events
    ensures var r1 := End(db, t, true, now);
      var r2 := End(r1.db, r1.txn, true, later);
      !r2.changed && r2.db == r1.db && r2.txn == r1.txn
  {
    var sid := t.sub.value;
    var r1 := End(db, t, true, now);
    var r2 := End(r1.db, r1.txn, true, later);
    assert Closed(r1.txn, true, later) == r1.txn;
    assert AfterClose(r1.db, r1.txn, true, later) == r1.db;
    var db1 := AfterClose(db, t, true, now);
    if db.subs[sid].state < CONFIRMED {
      assert PaidAmounts(r1.db, sid) == PaidAmounts(db1, sid);
      assert OptionalPrices(r1.db, r1.db.subs[sid]) == OptionalPrices(db1, db1.subs[sid]);
      assert Owing(r1.db, sid) == Owing(db1, sid);
      assert r1.db.subs[sid := r2.sub] == r1.db.subs;
    }
  }

  /** A second rejection of a transaction whose first rejection released
      the subscription reports a change again, so its callers notify twice. */
  lemma RejectRedeliveryRepeats(db: Db, t: Transaction, now: int, later: int)
    requires t.id.Some? && t.sub.Some? && t.sub.value in db.subs && db.subs[t.sub.value].event in db.events
    requires End(db, t, false, now).changed
    ensures var r1 := End(db, t, false, now); End(r1.db, r1.txn, false, later).changed
  {
    var sid := t.sub.value;
    var r1 := End(db, t, false, now);
    var db1 := AfterClose(db, t, false, now);
    assert Closed(r1.txn, false, later) == r1.txn;
    assert AfterClose(r1.db, r1.txn, false, later) == r1.db;
    assert !OpenOfMethod(db1, sid, t.payMethod);
  }

  /** Closing a stored transaction keeps the database well formed. */
  lemma EndKeepsValid(db: Db, t: Transaction, ok: bool, now: int)
    requires db.Valid() && t.id.Some? && t.sub.Some? && t.sub.value in db.subs
    ensures db.subs[t.sub.value].event in db.events
    ensures End(db, t, ok, now).db.Valid()
  {
    var sid := t.sub.value;
    assert db.subs[sid].id == Some(sid) && db.subs[sid].event in db.events;
    var r := End(db, t, ok, now);
    assert r.db.subs.Keys == db.subs.Keys;
    forall k | k in r.db.trans
      ensures r.db.trans[k].id == Some(k) && r.db.trans[k].sub.Some? && r.db.trans[k].sub.value in r.db.subs
    {
    }
  }

  /** Writing a subscription row under its own id, for an existing event,
      keeps the database well formed. */
  lemma SubUpdateKeepsValid(db: Db, s: Subscription)
    requires db.Valid() && s.id.Some? && s.event in db.events
    ensures db.(subs := db.subs[s.id.value := s]).Valid()
  {
    var db' := db.(subs := db.subs[s.id.value := s]);
    forall k | k in db'.trans
      ensures db'.trans[k].sub.Some? && db'.trans[k].sub.value in db'.subs
    {
      assert k in db.trans;
    }
  }

  /** Writing a transaction row under its own id, owned by an existing
      subscription, keeps the database well formed. */
  lemma TransUpdateKeepsValid(db: Db, t: Transaction)
    requires db.Valid() && t.id.Some? && t.sub.Some? && t.sub.value in db.subs
    ensures db.(trans := db.trans[t.id.value := t]).Valid()
  {
  }

  // ---------------------------------------------------------------- the database object

  /** A key above every key in use: the next autoincrement id. */
  function FreshKey(keys: set<int>): (k: int)
    ensures k >= 1 && forall x :: x in keys ==> x < k
    decreases |keys|
  {
    if keys == {} then 1
    else
      var m := MinOf(keys);
      var above := FreshKey(keys - {m});
      assert forall x :: x in keys ==> x == m || x in keys - {m};
      if m < above then above else m + 1
  }

  /** The database as one object that the operations update in place. */
  class Store {
    var db: Db

    constructor (db0: Db)
      ensures db == db0
    {
      db := db0;
    }

    /** `save()` of a subscription: insert under a new id when unsaved,
        otherwise overwrite its row. */
    method SaveSubscription(s: Subscription) returns (saved: Subscription)
      modifies this
      ensures saved == s.(id := saved.id) && saved.id.Some?
      ensures s.id.Some? ==> saved.id == s.id
      ensures s.id.None? ==> saved.id.value !in old(db.subs)
      ensures db == old(db).(subs := old(db.subs)[saved.id.value := saved])
    {
      var id := if s.id.Some? then s.id.value else FreshKey(db.subs.Keys);
      saved := s.(id := Some(id));
      db := db.(subs := db.subs[id := saved]);
    }

    /** `save()` of a transaction. */
    method SaveTransaction(t: Transaction) returns (saved: Transaction)
      modifies this
      ensures saved == t.(id := saved.id) && saved.id.Some?
      ensures t.id.Some? ==> saved.id == t.id
      ensures t.id.None? ==> saved.id.value !in old(db.trans)
      ensures db == old(db).(trans := old(db.trans)[saved.id.value := saved])
    {
      var id := if t.id.Some? then t.id.value else FreshKey(db.trans.Keys);
      saved := t.(id := Some(id));
      db := db.(trans := db.trans[id := saved]);
    }

    /** `Transaction.end` on the stored rows, step by step: close and store
        the transaction, then move the subscription as `End` says. */
    method EndTransaction(t: Transaction, ok: bool, now: int) returns (closed: Transaction, s: Subscription, changed: bool)
      requires t.id.Some? && t.sub.Some? && t.sub.value in db.subs && db.subs[t.sub.value].event in db.events
      modifies this
      ensures var r := End(old(db), t, ok, now);
        db == r.db && closed == r.txn && s == r.sub && changed == r.changed
    {
      closed := t.(accepted := ok);
      if closed.endedAt.None? {
        closed := closed.(endedAt := Some(now));
      }
      if closed.filledAt.None? {
        closed := closed.(filledAt := closed.endedAt);
      }
      assert closed == Closed(t, ok, now);
      db := db.(trans := db.trans[t.id.value := closed]);
      var sid := t.sub.value;
      s := db.subs[sid];
      ghost var judged := db;
      assert judged == AfterClose(old(db), t, ok, now);
      if s.state >= CONFIRMED {
        changed := false;
      } else if ok {
        var target := if Owing(db, sid) != 0 then PARTIALLY_PAID else CONFIRMED;
        assert target == PaidTarget(Owing(judged, sid));
        changed := s.state < target;
        if changed {
          s := s.(state := target);
        }
        db := db.(subs := db.subs[sid := s]);
      } else if s.state >= PARTIALLY_PAID {
        changed := false;
      } else if OpenOfMethod(db, sid, t.payMethod) {
        changed := false;
      } else {
        s := s.(state := ACCEPTABLE, position := None);
        s := s.(waitUntil := None);
        db := db.(subs := db.subs[sid := s]);
        changed := true;
      }
    }
  }
}
