/** Concrete runs of the handlers, one event at a time. */
module Scenarios {
  import opened Wrappers
  import opened Text
  import opened Echo
  import opened Relay
  import opened Coordinator

  const Cfg := Config("MyGroup", "secret", "Starfleet", "bridge")

  /** The configured group name in three letter cases upper-cases alike. */
  lemma GroupCaseVariants(group: string)
    requires group == "MyGroup" || group == "MYGROUP" || group == "mygroup"
    ensures Upper(group) == Upper("MyGroup")
  {
    UpperEqualIff(group, "MyGroup");
  }

  /** A plain group message is relayed as "first last [SL]: text", also when
      the group name arrives in another letter case. */
  lemma GroupMessageRelayed(group: string)
    requires group == "MyGroup" || group == "MYGROUP" || group == "mygroup"
    ensures Inbound(Cfg, Some("42"),
                    Notification(Some("group"), Some(group), Some("Jane"), Some("Doe"), Some("hello")))
         == Send("42", "Jane Doe [SL]: hello")
  {
    NoHashNoMatch("hello");
    GroupCaseVariants(group);
    var n := Notification(Some("group"), Some(group), Some("Jane"), Some("Doe"), Some("hello"));
    assert SecondLifeLine(n) == "Jane Doe [SL]: hello";
  }

  /** Before the channel is known the same message only raises the error. */
  lemma UnresolvedReportsError()
    ensures Inbound(Cfg, None,
                    Notification(Some("group"), Some("MyGroup"), Some("Jane"), Some("Doe"), Some("hello")))
         == ErrorUnresolved
  {
  }

  /** The content of a message with no text and one attachment. */
  lemma AttachmentOnlyContent()
    ensures MessageContent("", ["http://x/img.png"]) == " http://x/img.png"
  {
    assert ["http://x/img.png"][..0] == [];
  }

  /** The reply for Bob#0001 with that content: two spaces after the colon. */
  lemma AttachmentOnlyReply()
    ensures Reply("Bob", "0001", " http://x/img.png") == "Bob#0001 [Discord]:  http://x/img.png"
  {
    assert "Bob" + "#" + "0001" == "Bob#0001";
    assert "Bob#0001" + " [Discord]: " == "Bob#0001 [Discord]: ";
    assert "Bob#0001 [Discord]: " + " http://x/img.png" == "Bob#0001 [Discord]:  http://x/img.png";
  }

  /** Empty text with one attachment is still published. */
  lemma AttachmentOnlyMessage()
    ensures Outbound(Cfg, Some("42"),
                     ChatMessage(false, "Bob", "0001", "", ["http://x/img.png"], "42", "Starfleet", "text"))
         == Some(Publish(Topic(Cfg), TellCommand(Cfg, "Bob#0001 [Discord]:  http://x/img.png")))
  {
    AttachmentOnlyContent();
    AttachmentOnlyReply();
  }

  /** A bot's message is never published. */
  lemma BotMessageDropped()
    ensures Outbound(Cfg, Some("42"),
                     ChatMessage(true, "Bob", "0001", "spam", [], "42", "Starfleet", "text"))
         == None
  {
  }

  /** "hi" from Alice#1234 comes back from the group and is not sent to the chat again. */
  lemma AliceEchoDropped()
    ensures !Inbound(Cfg, Some("42"),
                     Notification(Some("group"), Some("MyGroup"), Some("Jane"), Some("Doe"),
                                  Some("Alice#1234 [Discord]: hi"))).Send?
  {
    assert Reply("Alice", "1234", "hi") == "Alice#1234 [Discord]: hi";
    ReplyMatchesEcho("Alice", "1234", "hi");
  }

  /** A notification before `ready` only raises the error; once the channel
      is resolved the same notification is relayed. */
  method ResolveThenRelay() returns (before: InboundOutcome, after: InboundOutcome)
    ensures before == ErrorUnresolved
    ensures after == Send("42", "Jane Doe [SL]: hello")
  {
    var bridge := new Bridge(Cfg);
    var jane := Notification(Some("group"), Some("mygroup"), Some("Jane"), Some("Doe"), Some("hello"));
    before := bridge.OnNotification(jane);

    var channels := [Channel("7", "general", "Starfleet"), Channel("42", "bridge", "Starfleet")];
    var notFound := bridge.OnReady(channels);
    assert IsTarget(Cfg, channels[1]) && !IsTarget(Cfg, channels[0]);
    assert !notFound && bridge.channelId == Some("42");

    after := bridge.OnNotification(jane);
    GroupMessageRelayed("mygroup");
  }

  /** What the bridge publishes for a chat message comes back from the group
      and is not sent to the chat again. */
  method RelayedLineComesBack(m: ChatMessage) returns (p: Option<Publish>, o: InboundOutcome)
    requires !m.authorIsBot && m.content != ""
    requires m.username != [] && OnOneLine(m.username)
    requires m.discriminator != [] && AllDigits(m.discriminator)
    requires m.channelId == "42" && m.guildName == "Starfleet" && m.channelType == "text"
    ensures p.Some? && p.value.topic == Topic(Cfg)
    ensures o == Drop
  {
    var bridge := new Bridge(Cfg);
    var notFound := bridge.OnReady([Channel("42", "bridge", "Starfleet")]);
    assert IsTarget(Cfg, Channel("42", "bridge", "Starfleet"));
    assert bridge.channelId == Some("42");

    p := bridge.OnChatMessage(m);
    OutboundPublishIff(Cfg, bridge.channelId, m);
    var echo := Notification(Some("group"), Some("MyGroup"), Some("Alice"), Some("Resident"),
                             Lookup(p.value.fields, "message"));
    NoEchoLoop(Cfg, bridge.channelId, m, bridge.channelId, echo);
    o := bridge.OnNotification(echo);
  }

  /** A later `ready` that finds a matching channel overwrites the id; one
      that finds none keeps it. */
  method LaterReadyOverwrites() returns (first: Option<string>, second: Option<string>, third: Option<string>)
    ensures first == Some("42")
    ensures second == Some("99")
    ensures third == Some("99")
  {
    var bridge := new Bridge(Cfg);
    var notFound := bridge.OnReady([Channel("42", "bridge", "Starfleet")]);
    assert IsTarget(Cfg, Channel("42", "bridge", "Starfleet"));
    first := bridge.channelId;

    notFound := bridge.OnReady([Channel("99", "bridge", "Starfleet")]);
    assert IsTarget(Cfg, Channel("99", "bridge", "Starfleet"));
    second := bridge.channelId;

    notFound := bridge.OnReady([Channel("7", "general", "Starfleet")]);
    third := bridge.channelId;
  }
}
