# pubsub: a verified model of an in-process observer

The sample program `pubsub.cpp` defines an in-process publish/subscribe mechanism.
Each message object has an ordered list of subscriber pointers and a name.
Publishing a message (`MessageBase::notify`) calls every listed subscriber's
`notify(this)` synchronously, in list order.
A message can take a snapshot of another message's list (`copySubscribers`).
Each subscriber is stamped at construction with an ID taken from a process-wide counter.
Both subscribers and messages come in several variants.
A subscriber tells message variants apart with `dynamic_cast`.

The model has two files:

- `pubsub.dfy`, module `PubSub`, holds the following.
  - the ID counter (class `IdCounter`) and the ID sequence it produces (`IssuedIds`).
    The C++ counter is an `unsigned int`. The model assumes that type is 32 bits wide,
    as it is on the usual platforms, and wraps the counter modulo 2^32 explicitly.
  - the message variants as a closed sum (`MessageKind`) and the names their
    constructors give.
  - each subscriber class's reaction to a message (`NamedReaction`,
    `HandlerReaction`) and the virtual `alertText` (`AlertTextOf`), written as functions
    that return an `Outcome` value in place of the printed line.
  - a reference definition of what one publish delivers (`Deliveries`), with
    lemmas on order, exactly-once delivery and appending.
  - class `Message`, the state of `MessageBase` plus the variant's data, modelled imperatively.
    Its methods are `AddSubscriber`, `CopySubscribers`, `SetName`/`GetName`, `Notify`, which
    is a loop proved equal to `Deliveries`, and `NotifyVoltage`, the over-voltage
    alert's `notify(float)`.
- `demo.dfy`, module `Demo`, replays `main` step by step in `SampleProgram`, which runs
  `GreetingPart` and then `AlertPart`.
  All seven subscribers come from one `IdCounter`, in the program's creation order, so
  they get IDs 0 to 6. Each message gets the same list as in `main`. The contract of each
  `Fire*` method states the full delivery trace of its publishes, in place of the printed
  lines. The phases are `CreateNamedSubscribers`, `GreetingMessages`, `FireGreetings`,
  `CreateAlertHandlers`, `TransformerAlerts` (with `CopiedAlerts`), `FireT2Overvoltage`,
  `FireT1Undervoltage`, `AddNocHandler` and `FireT1Overvoltage`. Beside them is a general
  statement of snapshot independence, `CopyThenExtendSeparately`.

Modelling choices:

- A subscriber is a value `Subscriber(id, kind)`, because nothing changes its fields
  after construction.
  The C++ lists hold pointers to subscribers.
  The model tells subscribers apart by the whole value, ID and kind together.
  IDs alone are distinct while at most 2^32 subscribers have been created.
- The static `Subscriber::runningID` is modelled as an `IdCounter` object. Its ghost
  field `issued` logs every ID it hands out. The demo creates one counter, and every
  subscriber in it is created through that counter.
- `getName` is `Message.GetName`, a plain read of the `name` field.
  `getString` and `getWhichTransformer` are the datatype fields
  `MessageKind.sMessage` and `MessageKind.whichTransformer`.
  `getID` is the field `Subscriber.id`.
- A publish returns a trace with one `Delivery(subscriber, outcome)` per call of a
  subscriber's `notify`. This trace stands in for what the subscribers print.

## Model

| member | source | states |
|---|---|---|
| `PubSub.IssuedIds` | pubsub.cpp:28-37 | the IDs of the first n constructions form a sequence of exactly n values |
| `PubSub.IssuedIdsAt` | pubsub.cpp:30 | the k-th subscriber created receives ID k modulo 2^32, since the counter starts at 0 and each construction takes its value and increments it |
| `PubSub.IssuedIdsIncreasing` | pubsub.cpp:28-37 | with at most 2^32 subscribers created, IDs strictly increase in creation order |
| `PubSub.IssuedIdsDistinct` | pubsub.cpp:28-37 | with at most 2^32 subscribers created, no two subscribers share an ID |
| `PubSub.IssuedIdsWrapAround` | pubsub.cpp:27-30 | the `unsigned int` counter wraps: subscriber number 2^32 gets ID 0, the same as the first |
| `PubSub.IdCounter.constructor` | pubsub.cpp:37 | the counter starts at 0 with nothing issued |
| `PubSub.IdCounter.NewSubscriber` | pubsub.cpp:30 | the new subscriber's ID is the counter's old value; the counter becomes old+1 mod 2^32; the ID log grows by that ID and still equals `IssuedIds` of its length; while fewer than 2^32 IDs have been issued, the new ID is not among them |
| `PubSub.AlertTextOf` | pubsub.cpp:150-177 | the most derived `alertText` runs: the over-voltage text carries the stored amount, the under-voltage text and the generic text do not; all name the alert's transformer |
| `PubSub.NamedReaction` | pubsub.cpp:129-136 | a named subscriber yields the payload exactly when the message is a dynamic message, and otherwise the message's current name; the outcome carries the subscriber's name |
| `PubSub.HandlerReaction` | pubsub.cpp:187-192 | a voltage alert handler ignores a message exactly when it is not a transformer alert or descendant; otherwise it forwards that alert's text to its own address |
| `PubSub.React` | pubsub.cpp:32 | virtual dispatch on the subscriber class. A named subscriber yields the payload exactly on dynamic messages and the current name otherwise, always under its own name. A handler forwards `AlertTextOf` the message to its own address exactly on transformer alerts, and ignores everything else |
| `PubSub.Deliveries` | pubsub.cpp:76-82 | one publish makes as many calls as the list has entries |
| `PubSub.DeliveriesAt` | pubsub.cpp:76-82 | the i-th call goes to the i-th list entry and carries that subscriber's reaction to the message |
| `PubSub.DeliveriesAppend` | pubsub.cpp:76-85 | publishing to a concatenated list makes the calls for the first part, then those for the second |
| `PubSub.AddedSubscriberNotifiedLast` | pubsub.cpp:84-86 | after appending s, a publish makes the old calls unchanged and then exactly one call to s |
| `PubSub.DeliveredInListOrder` | pubsub.cpp:76-82 | the recipients of a publish, in order, are exactly the subscriber list |
| `PubSub.DeliveredExactlyOnce` | pubsub.cpp:76-82 | each subscriber is called as many times as it is listed: once per registration, duplicates included, never if unlisted |
| `PubSub.NoSubscribersNoDeliveries` | pubsub.cpp:76-82 | publishing to an empty list makes no call |
| `PubSub.Message.constructor` | pubsub.cpp:93-175 | a new message has an empty list and no voltage amount; the name is "" for the base default constructor, "TestMessage1", "TestMessage2", "DynamicMessage", "Transformer Alert", and "OvervoltageAlert"/"UndervoltageAlert" for the two voltage alerts, which overwrite the transformer alert's name |
| `PubSub.Message.Named` | pubsub.cpp:70 | `MessageBase(name)` gives a base message with that name and an empty list |
| `PubSub.Message.GetName` | pubsub.cpp:88 | returns the current name, which is the constructor's name or the last `SetName` argument, and is the name subscribers see when the message is published |
| `PubSub.Message.SetName` | pubsub.cpp:89 | the name becomes the argument; the list and the voltage amount are unchanged |
| `PubSub.Message.AddSubscriber` | pubsub.cpp:84-86 | the list becomes old list + [s], duplicates kept; name and voltage amount unchanged |
| `PubSub.Message.CopySubscribers` | pubsub.cpp:74 | the list becomes the source's list as it was at the call, discarding the old one; the source's list and this message's name are unchanged |
| `PubSub.Message.Notify` | pubsub.cpp:76-82 | the loop's trace equals `Deliveries` of the current list and state, so its recipients are exactly the list, in order; the message is not modified |
| `PubSub.Message.NotifyVoltage` | pubsub.cpp:165-168 | stores the amount, then publishes to the unchanged list; every alert delivered carries the new amount |
| `Demo.CopyThenExtendSeparately` | pubsub.cpp:240-269 | after copying one alert's list to another, appending to each changes only that one: the copy is a snapshot, not a link |
| `Demo.CreateNamedSubscribers` | pubsub.cpp:196-198 | the program's first three subscribers, from a fresh counter, get IDs 0, 1 and 2 |
| `Demo.GreetingMessages` | pubsub.cpp:200-213 | the four greeting messages have their constructors' names and `main`'s lists; message4's list is the snapshot of message3's |
| `Demo.CreateAlertHandlers` | pubsub.cpp:229-231 | the three alert handlers, created after the named subscribers, get IDs 3, 4 and 5 |
| `Demo.TransformerAlerts` | pubsub.cpp:235-246 | four distinct alert objects; the first is filled with the three handlers and the other three copy that list |
| `Demo.AddNocHandler` | pubsub.cpp:264-269 | the new handler gets ID 6 and is appended to each of the four separate lists, with no other change |
| `Demo.SampleProgram` | pubsub.cpp:195-283 | the seven publishes of the program reach, in order, [sub1], [sub2, sub3], [sub1, sub2, sub3] twice, [email, pager, url] twice, and [email, pager, url, noc] |
| `Demo.GreetingPart` | pubsub.cpp:196-225 | the four greeting publishes reach [sub1], [sub2, sub3] and [sub1, sub2, sub3] twice; three IDs are used |
| `Demo.AlertPart` | pubsub.cpp:229-278 | the three alert publishes reach [email, pager, url] twice and then [email, pager, url, noc] |
| `Demo.FireGreetings` | pubsub.cpp:215-225 | the full traces of the four greeting publishes: the test messages report their names, and the dynamic message gives every subscriber "Hello World" |
| `Demo.CopiedAlerts` | pubsub.cpp:243-246 | transformer 2's two new alerts have their constructors' names and a snapshot of transformer 1's over-voltage list |
| `Demo.FireT2Overvoltage` | pubsub.cpp:254 | the full trace: each of the three handlers forwards the over-voltage text with amount 150000 for transformer_id_2 |
| `Demo.FireT1Undervoltage` | pubsub.cpp:260 | the full trace: each of the three handlers forwards the under-voltage text for transformer_id_1 |
| `Demo.FireT1Overvoltage` | pubsub.cpp:278 | the full trace: the three handlers and then the NOC handler forward the over-voltage text with amount 200000 for transformer_id_1 |

## Left out

- All console output (`cout`). `main` is replayed in `demo.dfy`, where assertions about
  delivery traces stand in for the printed text. The printed text itself is not modelled.
- The single process-wide counter is a convention the model does not enforce. Any code
  can build a `Subscriber(id, kind)` value directly, or create several `IdCounter`s that
  each start at 0. Only subscribers obtained from one counter are guaranteed distinct IDs.
- `float voltageAmount`: stored as an opaque `real`. No float rounding or formatting is modelled.
  `None` stands for the indeterminate value the C++ field holds until `notify(float)` is called.
- Raw pointer lifetime: a dangling subscriber pointer, or a null `from` in
  `copySubscribers`, is undefined behaviour in C++. In the model, list entries are
  values and `from` is a non-null reference.
- Subscriber callbacks with side effects: a reaction is a pure `Outcome`, so no
  subscriber can change a message's list while `Notify` iterates over it. Such a change
  would invalidate the vector iterator in C++, which is undefined behaviour.
- `dynamic_cast` and the virtual destructors: these are replaced by matching on the
  `MessageKind` and `SubscriberKind` tags.
- Pointer identity of subscribers: two distinct C++ subscribers with equal IDs (possible
  only after the counter wraps) and the same class and label are equal values in the model.
- `PubSub.IssuedIdsDistinct`: holds only for at most 2^32 creations, because the C++
  counter is 32 bits wide; `PubSub.IssuedIdsWrapAround` shows the first repeat.
