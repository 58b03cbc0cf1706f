/**
  The sample program's `main`, phase by phase: every subscriber comes from one
  ID counter in the program's creation order, and what each publish delivers is
  stated in a contract instead of a printed line.
 */
module Demo {
  import opened PubSub

  // The program's seven subscribers, with the IDs their creation order gives them.
  const SUB1 := Subscriber(0, NamedSubscriber("sub1"))
  const SUB2 := Subscriber(1, NamedSubscriber("sub2"))
  const SUB3 := Subscriber(2, NamedSubscriber("sub3"))
  const EMAIL := Subscriber(3, VoltageAlertHandler("mailto:crises@electrical-company.com"))
  const PAGER := Subscriber(4, VoltageAlertHandler("pager:123123123"))
  const URL := Subscriber(5, VoltageAlertHandler("http://www.electrical-company.com"))
  const NOC := Subscriber(6, VoltageAlertHandler("mailto:NOC@electrical-company.com"))

  // The texts of the three alerts the program raises.
  const T2_OVER := OvervoltageText(Some(150000.0), "transformer_id_2")
  const T1_UNDER := UndervoltageText("transformer_id_1")
  const T1_OVER := OvervoltageText(Some(200000.0), "transformer_id_1")

  /** A message whose list was copied from another can then be extended on its
      own: the copy is a snapshot, not a link, in either direction. */
  method CopyThenExtendSeparately(source: Message, copy: Message, s: Subscriber, t: Subscriber)
    requires source != copy
    modifies source, copy
    ensures copy.subscribers == old(source.subscribers) + [t]
    ensures source.subscribers == old(source.subscribers) + [s]
    ensures copy.name == old(copy.name) && source.name == old(source.name)
  {
    copy.CopySubscribers(source);
    source.AddSubscriber(s);
    copy.AddSubscriber(t);
  }

  /** The whole program: the greeting messages, then the transformer alerts. The
      seven publishes reach `main`'s lists, in `main`'s order. */
  method SampleProgram() returns (traces: seq<seq<Delivery>>)
    ensures |traces| == 7
    ensures Recipients(traces[0]) == [SUB1]
    ensures Recipients(traces[1]) == [SUB2, SUB3]
    ensures Recipients(traces[2]) == Recipients(traces[3]) == [SUB1, SUB2, SUB3]
    ensures Recipients(traces[4]) == Recipients(traces[5]) == [EMAIL, PAGER, URL]
    ensures Recipients(traces[6]) == [EMAIL, PAGER, URL, NOC]
  {
    var ids := new IdCounter();
    var greetings := GreetingPart(ids);
    var alerts := AlertPart(ids);
    traces := greetings + alerts;
    assert traces[..4] == greetings && traces[4..] == alerts;
  }

  /** The first half of the program: named subscribers and greeting messages. */
  method GreetingPart(ids: IdCounter) returns (traces: seq<seq<Delivery>>)
    requires ids.Valid() && ids.issued == []
    modifies ids
    ensures ids.Valid() && |ids.issued| == 3
    ensures |traces| == 4
    ensures Recipients(traces[0]) == [SUB1]
    ensures Recipients(traces[1]) == [SUB2, SUB3]
    ensures Recipients(traces[2]) == Recipients(traces[3]) == [SUB1, SUB2, SUB3]
  {
    var sub1, sub2, sub3 := CreateNamedSubscribers(ids);
    var message1, message2, message3, message4 := GreetingMessages(sub1, sub2, sub3);
    var trace1, trace2, trace3, trace4 := FireGreetings(sub1, sub2, sub3, message1, message2, message3, message4);
    traces := [trace1, trace2, trace3, trace4];
    assert traces[0] == trace1 && traces[1] == trace2 && traces[2] == trace3 && traces[3] == trace4;
  }

  /** The second half of the program: alert handlers and transformer alerts. */
  method AlertPart(ids: IdCounter) returns (traces: seq<seq<Delivery>>)
    requires ids.Valid() && |ids.issued| == 3
    modifies ids
    ensures |traces| == 3
    ensures Recipients(traces[0]) == Recipients(traces[1]) == [EMAIL, PAGER, URL]
    ensures Recipients(traces[2]) == [EMAIL, PAGER, URL, NOC]
  {
    var email, pager, url := CreateAlertHandlers(ids);
    var t1Over, t1Under, t2Over, t2Under := TransformerAlerts(email, pager, url);
    var trace5 := FireT2Overvoltage(email, pager, url, t2Over);
    var trace6 := FireT1Undervoltage(email, pager, url, t1Under);
    var noc := AddNocHandler(ids, t1Over, t1Under, t2Over, t2Under);
    assert t1Over.subscribers == [email, pager, url, noc];
    var trace7 := FireT1Overvoltage(email, pager, url, noc, t1Over);
    traces := [trace5, trace6, trace7];
    assert traces[0] == trace5 && traces[1] == trace6 && traces[2] == trace7;
  }

  /** The three named subscribers, the first subscribers the program creates. */
  method CreateNamedSubscribers(ids: IdCounter) returns (sub1: Subscriber, sub2: Subscriber, sub3: Subscriber)
    requires ids.Valid() && ids.issued == []
    modifies ids
    ensures ids.Valid() && ids.issued == [0, 1, 2]
    ensures sub1 == SUB1 && sub2 == SUB2 && sub3 == SUB3
  {
    sub1 := ids.NewSubscriber(NamedSubscriber("sub1"));
    sub2 := ids.NewSubscriber(NamedSubscriber("sub2"));
    sub3 := ids.NewSubscriber(NamedSubscriber("sub3"));
  }

  /** Four messages; the last one takes a snapshot of the third one's list. */
  method GreetingMessages(sub1: Subscriber, sub2: Subscriber, sub3: Subscriber)
    returns (message1: Message, message2: Message, message3: Message, message4: Message)
    ensures message1.View() == MessageView(TestMessage1, "TestMessage1", None)
    ensures message2.View() == MessageView(TestMessage2, "TestMessage2", None)
    ensures message3.View() == MessageView(TestMessage1, "TestMessage1", None)
    ensures message4.View() == MessageView(DynamicMessage("Hello World"), "DynamicMessage", None)
    ensures message1.subscribers == [sub1]
    ensures message2.subscribers == [sub2, sub3]
    ensures message3.subscribers == message4.subscribers == [sub1, sub2, sub3]
  {
    message1 := new Message(TestMessage1);
    message1.AddSubscriber(sub1);

    message2 := new Message(TestMessage2);
    message2.AddSubscriber(sub2);
    message2.AddSubscriber(sub3);

    message3 := new Message(TestMessage1);
    message3.AddSubscriber(sub1);
    message3.AddSubscriber(sub2);
    message3.AddSubscriber(sub3);

    message4 := new Message(DynamicMessage("Hello World"));
    message4.CopySubscribers(message3);
  }

  /** Each greeting message reaches its own list; only the dynamic one carries
      a payload. */
  method FireGreetings(sub1: Subscriber, sub2: Subscriber, sub3: Subscriber,
                       message1: Message, message2: Message, message3: Message, message4: Message)
    returns (trace1: seq<Delivery>, trace2: seq<Delivery>, trace3: seq<Delivery>, trace4: seq<Delivery>)
    requires sub1.kind == NamedSubscriber("sub1")
    requires sub2.kind == NamedSubscriber("sub2")
    requires sub3.kind == NamedSubscriber("sub3")
    requires message1.View() == MessageView(TestMessage1, "TestMessage1", None)
    requires message2.View() == MessageView(TestMessage2, "TestMessage2", None)
    requires message3.View() == MessageView(TestMessage1, "TestMessage1", None)
    requires message4.View() == MessageView(DynamicMessage("Hello World"), "DynamicMessage", None)
    requires message1.subscribers == [sub1]
    requires message2.subscribers == [sub2, sub3]
    requires message3.subscribers == message4.subscribers == [sub1, sub2, sub3]
    ensures Recipients(trace1) == [sub1] && Recipients(trace2) == [sub2, sub3]
    ensures Recipients(trace3) == Recipients(trace4) == [sub1, sub2, sub3]
    ensures trace1 == [Delivery(sub1, PolymorphicReceived("sub1", "TestMessage1"))]
    ensures trace2 == [Delivery(sub2, PolymorphicReceived("sub2", "TestMessage2")),
                       Delivery(sub3, PolymorphicReceived("sub3", "TestMessage2"))]
    ensures trace3 == [Delivery(sub1, PolymorphicReceived("sub1", "TestMessage1")),
                       Delivery(sub2, PolymorphicReceived("sub2", "TestMessage1")),
                       Delivery(sub3, PolymorphicReceived("sub3", "TestMessage1"))]
    ensures trace4 == [Delivery(sub1, DynamicReceived("sub1", "Hello World")),
                       Delivery(sub2, DynamicReceived("sub2", "Hello World")),
                       Delivery(sub3, DynamicReceived("sub3", "Hello World"))]
  {
    trace1 := message1.Notify();

    trace2 := message2.Notify();
    DeliveriesAt([sub2, sub3], message2.View(), 0);
    DeliveriesAt([sub2, sub3], message2.View(), 1);

    trace3 := message3.Notify();
    DeliveriesAt([sub1, sub2, sub3], message3.View(), 0);
    DeliveriesAt([sub1, sub2, sub3], message3.View(), 1);
    DeliveriesAt([sub1, sub2, sub3], message3.View(), 2);

    trace4 := message4.Notify();
    DeliveriesAt([sub1, sub2, sub3], message4.View(), 0);
    DeliveriesAt([sub1, sub2, sub3], message4.View(), 1);
    DeliveriesAt([sub1, sub2, sub3], message4.View(), 2);
  }

  /** The three alert handlers, created after the three named subscribers. */
  method CreateAlertHandlers(ids: IdCounter) returns (email: Subscriber, pager: Subscriber, url: Subscriber)
    requires ids.Valid() && |ids.issued| == 3
    modifies ids
    ensures ids.Valid() && |ids.issued| == 6
    ensures email == EMAIL && pager == PAGER && url == URL
  {
    email := ids.NewSubscriber(VoltageAlertHandler("mailto:crises@electrical-company.com"));
    pager := ids.NewSubscriber(VoltageAlertHandler("pager:123123123"));
    url := ids.NewSubscriber(VoltageAlertHandler("http://www.electrical-company.com"));
  }

  /** Four alerts sharing one handler list: the first is filled, the other three
      copy it. */
  method TransformerAlerts(email: Subscriber, pager: Subscriber, url: Subscriber)
    returns (t1Over: Message, t1Under: Message, t2Over: Message, t2Under: Message)
    ensures fresh(t1Over) && fresh(t1Under) && fresh(t2Over) && fresh(t2Under)
    ensures t1Over != t1Under && t1Over != t2Over && t1Over != t2Under
    ensures t1Under != t2Over && t1Under != t2Under && t2Over != t2Under
    ensures t1Over.View() == MessageView(OvervoltageAlert("transformer_id_1"), "OvervoltageAlert", None)
    ensures t1Under.View() == MessageView(UndervoltageAlert("transformer_id_1"), "UndervoltageAlert", None)
    ensures t2Over.View() == MessageView(OvervoltageAlert("transformer_id_2"), "OvervoltageAlert", None)
    ensures t2Under.View() == MessageView(UndervoltageAlert("transformer_id_2"), "UndervoltageAlert", None)
    ensures t1Over.subscribers == t1Under.subscribers == [email, pager, url]
    ensures t2Over.subscribers == t2Under.subscribers == [email, pager, url]
  {
    t1Over := new Message(OvervoltageAlert("transformer_id_1"));
    t1Under := new Message(UndervoltageAlert("transformer_id_1"));
    t1Over.AddSubscriber(email);
    t1Over.AddSubscriber(pager);
    t1Over.AddSubscriber(url);
    t1Under.CopySubscribers(t1Over);
    t2Over, t2Under := CopiedAlerts(t1Over, "transformer_id_2");
  }

  /** A transformer's two alerts, both taking a snapshot of another alert's list. */
  method CopiedAlerts(source: Message, which: string) returns (over: Message, under: Message)
    ensures fresh(over) && fresh(under) && over != under
    ensures over.View() == MessageView(OvervoltageAlert(which), "OvervoltageAlert", None)
    ensures under.View() == MessageView(UndervoltageAlert(which), "UndervoltageAlert", None)
    ensures over.subscribers == under.subscribers == source.subscribers
  {
    over := new Message(OvervoltageAlert(which));
    under := new Message(UndervoltageAlert(which));
    over.CopySubscribers(source);
    under.CopySubscribers(source);
  }

  /** Transformer 2 over-voltaged by 150 kV: all three handlers get the amount. */
  method FireT2Overvoltage(email: Subscriber, pager: Subscriber, url: Subscriber, t2Over: Message)
    returns (trace: seq<Delivery>)
    requires email.kind == VoltageAlertHandler("mailto:crises@electrical-company.com")
    requires pager.kind == VoltageAlertHandler("pager:123123123")
    requires url.kind == VoltageAlertHandler("http://www.electrical-company.com")
    requires t2Over.kind == OvervoltageAlert("transformer_id_2")
    requires t2Over.subscribers == [email, pager, url]
    modifies t2Over
    ensures t2Over.subscribers == old(t2Over.subscribers) && t2Over.name == old(t2Over.name)
    ensures Recipients(trace) == [email, pager, url]
    ensures trace == [Delivery(email, AlertSent("mailto:crises@electrical-company.com", T2_OVER)),
                      Delivery(pager, AlertSent("pager:123123123", T2_OVER)),
                      Delivery(url, AlertSent("http://www.electrical-company.com", T2_OVER))]
  {
    trace := t2Over.NotifyVoltage(150000.0);
    DeliveriesAt([email, pager, url], t2Over.View(), 0);
    DeliveriesAt([email, pager, url], t2Over.View(), 1);
    DeliveriesAt([email, pager, url], t2Over.View(), 2);
  }

  /** Transformer 1 without voltage: all three handlers get the under-voltage text. */
  method FireT1Undervoltage(email: Subscriber, pager: Subscriber, url: Subscriber, t1Under: Message)
    returns (trace: seq<Delivery>)
    requires email.kind == VoltageAlertHandler("mailto:crises@electrical-company.com")
    requires pager.kind == VoltageAlertHandler("pager:123123123")
    requires url.kind == VoltageAlertHandler("http://www.electrical-company.com")
    requires t1Under.kind == UndervoltageAlert("transformer_id_1")
    requires t1Under.subscribers == [email, pager, url]
    ensures Recipients(trace) == [email, pager, url]
    ensures trace == [Delivery(email, AlertSent("mailto:crises@electrical-company.com", T1_UNDER)),
                      Delivery(pager, AlertSent("pager:123123123", T1_UNDER)),
                      Delivery(url, AlertSent("http://www.electrical-company.com", T1_UNDER))]
  {
    trace := t1Under.Notify();
    DeliveriesAt([email, pager, url], t1Under.View(), 0);
    DeliveriesAt([email, pager, url], t1Under.View(), 1);
    DeliveriesAt([email, pager, url], t1Under.View(), 2);
  }

  /** A new handler, appended to each of the four alerts' separate lists. */
  method AddNocHandler(ids: IdCounter, t1Over: Message, t1Under: Message, t2Over: Message, t2Under: Message)
    returns (noc: Subscriber)
    requires ids.Valid() && |ids.issued| == 6
    requires t1Over != t1Under && t1Over != t2Over && t1Over != t2Under
    requires t1Under != t2Over && t1Under != t2Under && t2Over != t2Under
    modifies ids, t1Over, t1Under, t2Over, t2Under
    ensures ids.Valid() && |ids.issued| == 7
    ensures noc == NOC
    ensures t1Over.subscribers == old(t1Over.subscribers) + [noc]
    ensures t1Under.subscribers == old(t1Under.subscribers) + [noc]
    ensures t2Over.subscribers == old(t2Over.subscribers) + [noc]
    ensures t2Under.subscribers == old(t2Under.subscribers) + [noc]
    ensures t1Over.View() == old(t1Over.View()) && t1Under.View() == old(t1Under.View())
    ensures t2Over.View() == old(t2Over.View()) && t2Under.View() == old(t2Under.View())
  {
    noc := ids.NewSubscriber(VoltageAlertHandler("mailto:NOC@electrical-company.com"));
    t1Over.AddSubscriber(noc);
    t1Under.AddSubscriber(noc);
    t2Over.AddSubscriber(noc);
    t2Under.AddSubscriber(noc);
  }

  /** Transformer 1 over-voltaged by 200 kV: the new handler is notified last. */
  method FireT1Overvoltage(email: Subscriber, pager: Subscriber, url: Subscriber, noc: Subscriber, t1Over: Message)
    returns (trace: seq<Delivery>)
    requires email.kind == VoltageAlertHandler("mailto:crises@electrical-company.com")
    requires pager.kind == VoltageAlertHandler("pager:123123123")
    requires url.kind == VoltageAlertHandler("http://www.electrical-company.com")
    requires noc.kind == VoltageAlertHandler("mailto:NOC@electrical-company.com")
    requires t1Over.kind == OvervoltageAlert("transformer_id_1")
    requires t1Over.subscribers == [email, pager, url, noc]
    modifies t1Over
    ensures Recipients(trace) == [email, pager, url, noc]
    ensures trace == [Delivery(email, AlertSent("mailto:crises@electrical-company.com", T1_OVER)),
                      Delivery(pager, AlertSent("pager:123123123", T1_OVER)),
                      Delivery(url, AlertSent("http://www.electrical-company.com", T1_OVER)),
                      Delivery(noc, AlertSent("mailto:NOC@electrical-company.com", T1_OVER))]
  {
    trace := t1Over.NotifyVoltage(200000.0);
    var handlers := [email, pager, url, noc];
    DeliveriesAt(handlers, t1Over.View(), 0);
    DeliveriesAt(handlers, t1Over.View(), 1);
    DeliveriesAt(handlers, t1Over.View(), 2);
    DeliveriesAt(handlers, t1Over.View(), 3);
  }
}
