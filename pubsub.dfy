/**
  In-process publish/subscribe: a message keeps an ordered list of subscribers
  and, when published, notifies every one of them synchronously, in list order.
  Subscribers tell message variants apart by their concrete type; here the
  variants are a closed sum and the reaction of a subscriber is a value.
 */
module PubSub {

  datatype Option<T> = None | Some(value: T)

  // ---------------------------------------------------------------------------
  // Subscriber identity
  // ---------------------------------------------------------------------------

  /** Number of values of the C++ `unsigned int` that holds IDs. */
  const ID_RANGE: nat := 0x1_0000_0000

  type Uint32 = x: int | 0 <= x < ID_RANGE

  /** The IDs that the first `n` subscriber constructions after start-up receive,
      in creation order: the counter starts at 0 and wraps modulo 2^32. */
  function IssuedIds(n: nat): (ids: seq<Uint32>)
    ensures |ids| == n
  {
    if n == 0 then [] else IssuedIds(n - 1) + [(n - 1) % ID_RANGE]
  }

  /** The k-th subscriber ever created gets ID k (modulo 2^32). */
  lemma {:induction false} IssuedIdsAt(n: nat, k: nat)
    requires k < n
    ensures IssuedIds(n)[k] == k % ID_RANGE
  {
    if k < n - 1 {
      IssuedIdsAt(n - 1, k);
    }
  }

  /** While at most 2^32 subscribers have been created, IDs follow creation order. */
  lemma IssuedIdsIncreasing(n: nat)
    requires n <= ID_RANGE
    ensures forall i, j :: 0 <= i < j < n ==> IssuedIds(n)[i] < IssuedIds(n)[j]
  {
    forall i, j | 0 <= i < j < n
      ensures IssuedIds(n)[i] < IssuedIds(n)[j]
    {
      IssuedIdsAt(n, i);
      IssuedIdsAt(n, j);
    }
  }

  /** While at most 2^32 subscribers have been created, no two share an ID. */
  lemma IssuedIdsDistinct(n: nat)
    requires n <= ID_RANGE
    ensures forall i, j :: 0 <= i < n && 0 <= j < n && i != j ==> IssuedIds(n)[i] != IssuedIds(n)[j]
  {
    IssuedIdsIncreasing(n);
  }

  /** The counter is an `unsigned int`: subscriber number 2^32 gets ID 0 again. */
  lemma IssuedIdsWrapAround()
    ensures IssuedIds(ID_RANGE + 1)[ID_RANGE] == IssuedIds(ID_RANGE + 1)[0] == 0
  {
    IssuedIdsAt(ID_RANGE + 1, ID_RANGE);
    IssuedIdsAt(ID_RANGE + 1, 0);
  }

  /** What a concrete subscriber class adds to the base: its own label. */
  datatype SubscriberKind =
    | NamedSubscriber(subscriberName: string)
    | VoltageAlertHandler(sendTo: string)

  /** A subscriber's fields are fixed when it is constructed. */
  datatype Subscriber = Subscriber(id: Uint32, kind: SubscriberKind)

  /** The process-wide counter `Subscriber::runningID`, with a ghost log of the
      IDs handed out so far. */
  class IdCounter {
    var runningID: Uint32
    ghost var issued: seq<Uint32>

    ghost predicate Valid()
      reads this
    {
      issued == IssuedIds(|issued|) && runningID == |issued| % ID_RANGE
    }

    /** The static initialiser: the counter starts at zero. */
    constructor ()
      ensures Valid() && issued == [] && runningID == 0
    {
      runningID := 0;
      issued := [];
    }

    /** The `Subscriber` base constructor: take the current value, then increment. */
    method NewSubscriber(kind: SubscriberKind) returns (s: Subscriber)
      requires Valid()
      modifies this
      ensures Valid()
      ensures s == Subscriber(old(runningID), kind)
      ensures runningID == (old(runningID) + 1) % ID_RANGE
      ensures issued == old(issued) + [s.id]
      ensures |old(issued)| < ID_RANGE ==> s.id !in old(issued)
    {
      if |issued| < ID_RANGE {
        forall k | 0 <= k < |issued|
          ensures issued[k] != runningID
        {
          IssuedIdsAt(|issued|, k);
        }
      }
      s := Subscriber(runningID, kind);
      runningID := (runningID + 1) % ID_RANGE;
      issued := issued + [s.id];
    }
  }

  // ---------------------------------------------------------------------------
  // Message variants
  // ---------------------------------------------------------------------------

  /** The concrete message classes and the data each adds to the base. */
  datatype MessageKind =
    | Plain
    | TestMessage1
    | TestMessage2
    | DynamicMessage(sMessage: string)
    | TransformerAlert(whichTransformer: string)
    | OvervoltageAlert(whichTransformer: string)
    | UndervoltageAlert(whichTransformer: string)

  /** Whether a message is a `TransformerAlert` or one of its descendants. */
  predicate IsTransformerAlert(k: MessageKind)
  {
    k.TransformerAlert? || k.OvervoltageAlert? || k.UndervoltageAlert?
  }

  /** The name a variant's constructor leaves behind. The two voltage alerts first
      get the `TransformerAlert` name and then overwrite it. */
  function ConstructedName(k: MessageKind): string
  {
    match k
    case Plain => ""
    case TestMessage1 => "TestMessage1"
    case TestMessage2 => "TestMessage2"
    case DynamicMessage(_) => "DynamicMessage"
    case TransformerAlert(_) => "Transformer Alert"
    case OvervoltageAlert(_) => "OvervoltageAlert"
    case UndervoltageAlert(_) => "UndervoltageAlert"
  }

  /** What a subscriber can observe of a message while it is being published. */
  datatype MessageView = MessageView(kind: MessageKind, name: string, voltageAmount: Option<real>)

  // ---------------------------------------------------------------------------
  // Subscriber reactions
  // ---------------------------------------------------------------------------

  /** The text the virtual `alertText` of a transformer alert reports. */
  datatype AlertText =
    | GenericAlert(transformer: string)
    | OvervoltageText(amount: Option<real>, transformer: string)
    | UndervoltageText(transformer: string)

  /** What a subscriber's `notify` does with one message, in place of its output. */
  datatype Outcome =
    | DynamicReceived(subscriber: string, text: string)
    | PolymorphicReceived(subscriber: string, messageName: string)
    | AlertSent(sendTo: string, alert: AlertText)
    | Ignored

  /** `alertText`, dispatched on the most derived transformer alert class. */
  function AlertTextOf(m: MessageView): (a: AlertText)
    requires IsTransformerAlert(m.kind)
    ensures a.transformer == m.kind.whichTransformer
    ensures a.OvervoltageText? <==> m.kind.OvervoltageAlert?
    ensures a.UndervoltageText? <==> m.kind.UndervoltageAlert?
    ensures a.OvervoltageText? ==> a.amount == m.voltageAmount
  {
    match m.kind
    case OvervoltageAlert(t) => OvervoltageText(m.voltageAmount, t)
    case UndervoltageAlert(t) => UndervoltageText(t)
    case TransformerAlert(t) => GenericAlert(t)
  }

  /** `NamedSubscriber::notify`: the payload of a dynamic message, and the
      message's current name for every other message. */
  function NamedReaction(who: string, m: MessageView): (r: Outcome)
    ensures r.DynamicReceived? <==> m.kind.DynamicMessage?
    ensures r.DynamicReceived? || r.PolymorphicReceived?
    ensures r.subscriber == who
    ensures r.DynamicReceived? ==> r.text == m.kind.sMessage
    ensures r.PolymorphicReceived? ==> r.messageName == m.name
  {
    if m.kind.DynamicMessage? then DynamicReceived(who, m.kind.sMessage)
    else PolymorphicReceived(who, m.name)
  }

  /** `VoltageAlertHandler::notify`: forward a transformer alert's text, and do
      nothing with any other message. */
  function HandlerReaction(sendTo: string, m: MessageView): (r: Outcome)
    ensures r.Ignored? <==> !IsTransformerAlert(m.kind)
    ensures r.Ignored? || r.AlertSent?
    ensures r.AlertSent? ==> r.sendTo == sendTo && r.alert == AlertTextOf(m)
  {
    if IsTransformerAlert(m.kind) then AlertSent(sendTo, AlertTextOf(m)) else Ignored
  }

  /** The virtual `Subscriber::notify`, dispatched on the subscriber's class. */
  function React(sub: SubscriberKind, m: MessageView): (r: Outcome)
    ensures r.DynamicReceived? <==> sub.NamedSubscriber? && m.kind.DynamicMessage?
    ensures r.PolymorphicReceived? <==> sub.NamedSubscriber? && !m.kind.DynamicMessage?
    ensures r.AlertSent? <==> sub.VoltageAlertHandler? && IsTransformerAlert(m.kind)
    ensures r.Ignored? <==> sub.VoltageAlertHandler? && !IsTransformerAlert(m.kind)
    ensures sub.NamedSubscriber? ==> r.subscriber == sub.subscriberName
    ensures r.DynamicReceived? ==> r.text == m.kind.sMessage
    ensures r.PolymorphicReceived? ==> r.messageName == m.name
    ensures r.AlertSent? ==> r.sendTo == sub.sendTo && r.alert == AlertTextOf(m)
  {
    match sub
    case NamedSubscriber(who) => NamedReaction(who, m)
    case VoltageAlertHandler(sendTo) => HandlerReaction(sendTo, m)
  }

  // ---------------------------------------------------------------------------
  // Publishing, as a specification
  // ---------------------------------------------------------------------------

  /** One call of a subscriber's `notify` during a publish. */
  datatype Delivery = Delivery(to: Subscriber, outcome: Outcome)

  /** The calls a publish of `m` to the list `subs` makes, in order. */
  function Deliveries(subs: seq<Subscriber>, m: MessageView): (t: seq<Delivery>)
    ensures |t| == |subs|
  {
    if subs == [] then []
    else [Delivery(subs[0], React(subs[0].kind, m))] + Deliveries(subs[1..], m)
  }

  /** The subscribers a trace of deliveries reached, in order. */
  function Recipients(t: seq<Delivery>): seq<Subscriber>
  {
    seq(|t|, i requires 0 <= i < |t| => t[i].to)
  }

  /** The i-th call goes to the i-th list entry, which reacts to the message. */
  lemma {:induction false} DeliveriesAt(subs: seq<Subscriber>, m: MessageView, i: nat)
    requires i < |subs|
    ensures Deliveries(subs, m)[i] == Delivery(subs[i], React(subs[i].kind, m))
  {
    if i > 0 {
      DeliveriesAt(subs[1..], m, i - 1);
    }
  }

  /** Publishing to a concatenated list is publishing to each part in turn. */
  lemma {:induction false} DeliveriesAppend(a: seq<Subscriber>, b: seq<Subscriber>, m: MessageView)
    ensures Deliveries(a + b, m) == Deliveries(a, m) + Deliveries(b, m)
  {
    if a == [] {
      assert a + b == b;
    } else {
      assert (a + b)[1..] == a[1..] + b;
      DeliveriesAppend(a[1..], b, m);
    }
  }

  /** A subscriber added last is notified last, after everyone notified before. */
  lemma AddedSubscriberNotifiedLast(subs: seq<Subscriber>, s: Subscriber, m: MessageView)
    ensures Deliveries(subs + [s], m) == Deliveries(subs, m) + [Delivery(s, React(s.kind, m))]
  {
    DeliveriesAppend(subs, [s], m);
  }

  /** Delivery order is list order: the recipients are exactly the list. */
  lemma DeliveredInListOrder(subs: seq<Subscriber>, m: MessageView)
    ensures Recipients(Deliveries(subs, m)) == subs
  {
  }

  /** Every subscriber is notified exactly as often as it appears in the list:
      once per registration, duplicates included, and never if absent. */
  lemma DeliveredExactlyOnce(subs: seq<Subscriber>, m: MessageView, s: Subscriber)
    ensures multiset(Recipients(Deliveries(subs, m)))[s] == multiset(subs)[s]
  {
    DeliveredInListOrder(subs, m);
  }

  /** Publishing with no subscribers makes no call. */
  lemma NoSubscribersNoDeliveries(m: MessageView)
    ensures Deliveries([], m) == []
  {
  }

  // ---------------------------------------------------------------------------
  // MessageBase and its descendants
  // ---------------------------------------------------------------------------

  /** A message object: the base's subscriber list and name, the variant's
      constant data, and the one field a variant updates (the over-voltage
      amount, set only by `NotifyVoltage`). */
  class Message {
    const kind: MessageKind
    var subscribers: seq<Subscriber>
    var name: string
    var voltageAmount: Option<real>

    /** The default constructor of the base and of each variant. */
    constructor (kind: MessageKind)
      ensures this.kind == kind && subscribers == [] && voltageAmount == None
      ensures name == ConstructedName(kind)
      ensures kind == Plain ==> name == ""
      ensures kind == TestMessage1 ==> name == "TestMessage1"
      ensures kind == TestMessage2 ==> name == "TestMessage2"
      ensures kind.DynamicMessage? ==> name == "DynamicMessage"
      ensures kind.TransformerAlert? ==> name == "Transformer Alert"
      ensures kind.OvervoltageAlert? ==> name == "OvervoltageAlert"
      ensures kind.UndervoltageAlert? ==> name == "UndervoltageAlert"
    {
      this.kind := kind;
      subscribers := [];
      name := ConstructedName(kind);
      voltageAmount := None;
    }

    /** `MessageBase(string)`: a base message with a given name. */
    constructor Named(initialName: string)
      ensures kind == Plain && subscribers == [] && voltageAmount == None
      ensures name == initialName
    {
      kind := Plain;
      subscribers := [];
      name := initialName;
      voltageAmount := None;
    }

    function View(): MessageView
      reads this
    {
      MessageView(kind, name, voltageAmount)
    }

    /** `getName`: the name subscribers see when the message is published. */
    function GetName(): (n: string)
      reads this
      ensures n == name && n == View().name
    {
      name
    }

    method SetName(newName: string)
      modifies this
      ensures name == newName
      ensures subscribers == old(subscribers) && voltageAmount == old(voltageAmount)
    {
      name := newName;
    }

    /** Appends; a subscriber already in the list is added again. */
    method AddSubscriber(s: Subscriber)
      modifies this
      ensures subscribers == old(subscribers) + [s]
      ensures name == old(name) && voltageAmount == old(voltageAmount)
    {
      subscribers := subscribers + [s];
    }

    /** Replaces this list by a snapshot of `from`'s list; `from` is untouched. */
    method CopySubscribers(from: Message)
      modifies this
      ensures subscribers == old(from.subscribers)
      ensures from.subscribers == old(from.subscribers)
      ensures name == old(name) && voltageAmount == old(voltageAmount)
    {
      subscribers := from.subscribers;
    }

    /** `MessageBase::notify`: publish to every list entry in order. The trace
        records each call; the message itself is not changed. */
    method Notify() returns (trace: seq<Delivery>)
      ensures trace == Deliveries(subscribers, View())
      ensures Recipients(trace) == subscribers
    {
      trace := [];
      var i := 0;
      while i < |subscribers|
        invariant 0 <= i <= |subscribers|
        invariant trace == Deliveries(subscribers[..i], View())
      {
        var s := subscribers[i];
        assert subscribers[..i + 1] == subscribers[..i] + [s];
        AddedSubscriberNotifiedLast(subscribers[..i], s, View());
        trace := trace + [Delivery(s, React(s.kind, View()))];
        i := i + 1;
      }
      assert subscribers[..i] == subscribers;
      DeliveredInListOrder(subscribers, View());
    }

    /** `OvervoltageAlert::notify(float)`: store the amount, then publish. */
    method NotifyVoltage(amount: real) returns (trace: seq<Delivery>)
      requires kind.OvervoltageAlert?
      modifies this
      ensures voltageAmount == Some(amount)
      ensures subscribers == old(subscribers) && name == old(name)
      ensures trace == Deliveries(subscribers, View())
      ensures Recipients(trace) == subscribers
    {
      voltageAmount := Some(amount);
      trace := Notify();
    }
  }
}
