/** E-mail notifications: the messages sent to a subscriber or to the event
    staff, and the batch that the queue sweep fills and sends afterwards.
    Sending is the append of a message to an `Outbox`; the mail transport
    and its background thread are not modelled. */
module Notify {
  import opened Common
  import opened Models

  /** What leaves the system: a composed staff mail, one of the subscriber
      notices (rendered by `NoticeMail`), or one of three notices that stand
      for calls whose target the source never defines: the queue sweep's
      `toggled` notice, the edit view's `saved` notice and the deposit
      upload's `notify_staff` notice. */
  datatype Message =
    | Mail(to: seq<string>, subject: string, body: seq<string>)  // `_mail` sends the body pieces joined with no separator
    | Notified(notice: Notice, subscriber: Subscription, ofEvent: Event)
    | Toggled(event: int)
    | Saved(sub: int, oldState: int)
    | StaffNotice(sub: int, text: string)

  /** The messages sent so far, in order. */
  class Outbox {
    var sent: seq<Message>

    constructor ()
      ensures sent == []
    {
      sent := [];
    }

    method Send(m: Message)
      modifies this
      ensures sent == old(sent) + [m]
    {
      sent := sent + [m];
    }
  }

  // ---------------------------------------------------------------- to the subscriber

  /** `Notifier._send`: to the subscriber's address, the subject followed by
      the event name, and the lines framed by a greeting (badge and a blank
      line) and a signature (a blank line, a rule as wide as the event name,
      the event name). */
  function SubscriberMail(s: Subscription, e: Event, subject: string, lines: seq<string>): (m: Message)
    ensures m.Mail? && m.to == [s.email] && |m.body| == |lines| + 5
  {
    Mail([s.email], subject + " - " + e.name, [s.badge + ",", ""] + lines + ["", Repeat('=', |e.name|), e.name])
  }

  /** The lines of a subscriber mail between its greeting and its signature. */
  function BodyLines(m: Message): seq<string>
    requires m.Mail? && |m.body| >= 5
  {
    m.body[2..|m.body| - 3]
  }

  /** The framing can be taken off again: the lines come back unchanged, the
      greeting names the badge, and the rule is exactly as wide as the name
      it underlines. */
  lemma SubscriberMailFraming(s: Subscription, e: Event, subject: string, lines: seq<string>)
    ensures var m := SubscriberMail(s, e, subject, lines);
      BodyLines(m) == lines && m.body[0] == s.badge + "," &&
      m.body[|m.body| - 1] == e.name && m.body[|m.body| - 2] == Repeat('=', |e.name|)
  {
    var m := SubscriberMail(s, e, subject, lines);
    assert m.body == [s.badge + ",", ""] + lines + ["", Repeat('=', |e.name|), e.name];
    assert m.body[2..|m.body| - 3] == lines;
  }

  /** The subscriber notices of the source. */
  datatype Notice = CanPay | Expired | DataDenied | Confirmed | PayDenied

  const CanPayText := "Your subscription may be paid now. After payment is confirmed, the spot is yours."
  const DataDeniedText := "Your data has been verified and your subscription has been denied."
  const ConfirmedText := "Welcome! Your subscription is confirmed. :)"
  const PayDeniedText := "The payment processor has cancelled your payment."
  const CanPaySubject := "Payment Available"
  const ExpiredSubject := "Payment Expired"
  const DataDeniedSubject := "Subscription Denied"
  const ConfirmedSubject := "Subscription Confirmed"
  const PayDeniedSubject := "Payment Cancelled"
  const ExpiredText := " hour deadline was missed and you've been moved off the payment queue."

  /** The mail a notice sends to the subscriber. */
  function NoticeMail(n: Notice, s: Subscription, e: Event): (m: Message)
    ensures m.Mail? && m.to == [s.email] && |m.body| == 6
  {
    match n
    case CanPay => SubscriberMail(s, e, CanPaySubject,
      [CanPayText])
    case Expired => SubscriberMail(s, e, ExpiredSubject,
      ["Your " + IntToString(e.paymentWaitHours) + ExpiredText])
    case DataDenied => SubscriberMail(s, e, DataDeniedSubject,
      [DataDeniedText])
    case Confirmed => SubscriberMail(s, e, ConfirmedSubject,
      [ConfirmedText])
    case PayDenied => SubscriberMail(s, e, PayDeniedSubject,
      [PayDeniedText])
  }

  // ---------------------------------------------------------------- to the staff

  /** `EventNotifier._send`: to every staff address, the subject prefixed by
      the bracketed event name. */
  function StaffMail(e: Event, staff: seq<string>, subject: string, body: seq<string>): (m: Message)
    ensures m.Mail? && m.to == staff && m.body == body
    ensures StartsWith(m.subject, "[" + e.name + "] ") && m.subject[|e.name| + 3..] == subject
  {
    Mail(staff, "[" + e.name + "] " + subject, body)
  }

  /** `must_check_subscription`: asks the staff to check one subscription of
      this event. `subscriptionUrl` and `eventUrl` are the absolute links to
      the staff pages of the subscription and of the event. */
  function MustCheckSubscription(e: Event, staff: seq<string>, s: Subscription, subscriptionUrl: string, eventUrl: string): (m: Message)
    requires s.event == e.id && s.id.Some?
    ensures m.Mail? && m.to == staff && |m.body| == 5
    ensures m.body[1] == subscriptionUrl && m.body[4] == eventUrl
  {
    StaffMail(e, staff, "Check: " + s.badge, [
      "Check subscription #" + IntToString(s.id.value) + " (" + s.badge + "):",
      subscriptionUrl,
      "",
      "All in " + e.name + ":",
      eventUrl])
  }

  /** `sales_closed`. */
  function SalesClosed(e: Event, staff: seq<string>): (m: Message)
    ensures m.Mail? && m.to == staff && |m.body| == 1
  {
    StaffMail(e, staff, "Sales closed!", ["Sales closed for event #" + IntToString(e.id) + " (" + e.name + ")"])
  }

  // ---------------------------------------------------------------- batches

  /** One notice per subscription, in order, each with its event. */
  function Batch(n: Notice, subs: seq<Subscription>, events: map<int, Event>): (r: seq<Message>)
    requires forall i :: 0 <= i < |subs| ==> subs[i].event in events
    ensures |r| == |subs|
  {
    if subs == [] then []
    else [Notified(n, subs[0], events[subs[0].event])] + Batch(n, subs[1..], events)
  }

  /** The notices collected during a sweep, sent only once it is over. The
      source's batch has no `toggled` method although the sweep calls one;
      here it records the event in the batch like the other two lists. */
  class BatchNotifier {
    var toggled: seq<int>
    var expired: seq<Subscription>
    var canPay: seq<Subscription>

    constructor ()
      ensures toggled == [] && expired == [] && canPay == []
    {
      toggled := [];
      expired := [];
      canPay := [];
    }

    method Toggled(eid: int)
      modifies this
      ensures toggled == old(toggled) + [eid] && expired == old(expired) && canPay == old(canPay)
    {
      toggled := toggled + [eid];
    }

    method Expired(s: Subscription)
      modifies this
      ensures expired == old(expired) + [s] && canPay == old(canPay) && toggled == old(toggled)
    {
      expired := expired + [s];
    }

    method CanPay(s: Subscription)
      modifies this
      ensures canPay == old(canPay) + [s] && expired == old(expired) && toggled == old(toggled)
    {
      canPay := canPay + [s];
    }

    /** `send_notifications`: every toggled notice, then every expired
        notice, then every can-pay notice, each list in the order it was
        filled. */
    method SendNotifications(outbox: Outbox, events: map<int, Event>)
      requires forall i :: 0 <= i < |expired| ==> expired[i].event in events
      requires forall i :: 0 <= i < |canPay| ==> canPay[i].event in events
      modifies outbox
      ensures outbox.sent == old(outbox.sent) + Toggles(toggled) + Batch(Notice.Expired, expired, events) + Batch(Notice.CanPay, canPay, events)
    {
      var i := 0;
      while i < |toggled|
        invariant 0 <= i <= |toggled|
        invariant outbox.sent == old(outbox.sent) + Toggles(toggled[..i])
      {
        outbox.Send(Message.Toggled(toggled[i]));
        assert Toggles(toggled[..i + 1]) == Toggles(toggled[..i]) + [Message.Toggled(toggled[i])];
        i := i + 1;
      }
      assert toggled[..i] == toggled;
      SendBatch(outbox, Notice.Expired, expired, events);
      SendBatch(outbox, Notice.CanPay, canPay, events);
    }
  }

  /** One toggled notice per event, in order. */
  function Toggles(eids: seq<int>): seq<Message>
  {
    seq(|eids|, i requires 0 <= i < |eids| => Message.Toggled(eids[i]))
  }

  /** Sends one notice to each subscription, in order. */
  method SendBatch(outbox: Outbox, n: Notice, subs: seq<Subscription>, events: map<int, Event>)
    requires forall i :: 0 <= i < |subs| ==> subs[i].event in events
    modifies outbox
    ensures outbox.sent == old(outbox.sent) + Batch(n, subs, events)
  {
    var i := 0;
    while i < |subs|
      invariant 0 <= i <= |subs|
      invariant outbox.sent == old(outbox.sent) + Batch(n, subs[..i], events)
    {
      outbox.Send(Notified(n, subs[i], events[subs[i].event]));
      assert subs[..i + 1] == subs[..i] + [subs[i]];
      BatchAppend(n, subs[..i], subs[i], events);
      i := i + 1;
    }
    assert subs[..i] == subs;
  }

  /** The i-th mail of a batch is the notice for the i-th subscription. */
  lemma {:induction false} BatchAt(n: Notice, subs: seq<Subscription>, events: map<int, Event>, i: int)
    requires forall k :: 0 <= k < |subs| ==> subs[k].event in events
    requires 0 <= i < |subs|
    ensures Batch(n, subs, events)[i] == Notified(n, subs[i], events[subs[i].event])
  {
    if i > 0 {
      BatchAt(n, subs[1..], events, i - 1);
    }
  }

  lemma {:induction false} BatchAppend(n: Notice, subs: seq<Subscription>, s: Subscription, events: map<int, Event>)
    requires forall i :: 0 <= i < |subs| ==> subs[i].event in events
    requires s.event in events
    ensures Batch(n, subs + [s], events) == Batch(n, subs, events) + [Notified(n, s, events[s.event])]
  {
    if subs != [] {
      assert (subs + [s])[1..] == subs[1..] + [s];
      BatchAppend(n, subs[1..], s, events);
    }
  }
}
