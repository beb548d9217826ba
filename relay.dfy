/** The relay decisions of the bridge between a Corrade group (reached over
    MQTT) and one Discord channel: which events are forwarded, and in what
    form. Each handler is a function from the event and the current channel
    cell to a decision value; transports only deliver that decision. */
module Relay {
  import opened Wrappers
  import opened Text
  import opened Echo

  /** The configuration values the handlers read. */
  datatype Config = Config(
    group: string,      // corrade.group
    password: string,   // corrade.password
    server: string,     // discord.server (guild name)
    channel: string     // discord.channel (channel name)
  )

  /** The MQTT topic for the group: subscribed to, and published on. */
  function Topic(cfg: Config): (t: string)
    ensures |t| == |cfg.group| + |cfg.password| + 7
    ensures t[..|cfg.group|] == cfg.group && t[|cfg.group|] == '/'
    ensures t[|t| - 6..] == "/group"
  {
    cfg.group + "/" + cfg.password + "/group"
  }

  /** Two group names without '/' share a topic only with the same credentials. */
  lemma TopicDeterminesCredentials(c1: Config, c2: Config)
    requires forall i :: 0 <= i < |c1.group| ==> c1.group[i] != '/'
    requires forall i :: 0 <= i < |c2.group| ==> c2.group[i] != '/'
    requires Topic(c1) == Topic(c2)
    ensures c1.group == c2.group && c1.password == c2.password
  {
    var t := Topic(c1);
    var g1, g2 := |c1.group|, |c2.group|;
    assert t == c1.group + "/" + c1.password + "/group";
    assert t == c2.group + "/" + c2.password + "/group";
    assert t[g1] == '/' && t[g2] == '/';
    assert forall i :: 0 <= i < g1 ==> t[i] == c1.group[i];
    assert forall i :: 0 <= i < g2 ==> t[i] == c2.group[i];
    assert g1 == g2;
    assert c1.group == t[..g1] == c2.group;
    assert c1.password == t[g1 + 1..|t| - 6] == c2.password;
  }

  // ---------------------------------------------------------------------------
  // Broker to chat

  /** A group-message notification after query-string parsing; every field may
      be absent. `kind` is the `type` field. */
  datatype Notification = Notification(
    kind: Option<string>,
    group: Option<string>,
    firstname: Option<string>,
    lastname: Option<string>,
    message: Option<string>
  )

  /** What the broker-side handler does with one notification. */
  datatype InboundOutcome =
    | ErrorUnresolved                        // logs that the channel is unknown
    | Drop                                   // returns silently
    | Send(channelId: string, text: string)  // sends `text` to the channel

  /** A template literal renders an absent value as "undefined". */
  function Render(v: Option<string>): string
  {
    match v
    case Some(s) => s
    case None => "undefined"
  }

  /** The handler dereferences `group` once the type check has passed and
      `message` once the group check has passed; it throws otherwise. */
  predicate InboundDefined(cfg: Config, cell: Option<string>, n: Notification): (r: bool)
    ensures cell.None? ==> r
    ensures n.kind != Some("group") ==> r
    ensures n.group.Some? && n.message.Some? ==> r
  {
    cell.Some? && n.kind == Some("group") ==>
      n.group.Some? && (Upper(n.group.value) == Upper(cfg.group) ==> n.message.Some?)
  }

  /** The chat line for a group message. */
  function SecondLifeLine(n: Notification): (t: string)
    requires n.message.Some?
    ensures |t| >= 7 + |n.message.value|
    ensures t[|t| - |n.message.value| - 7..] == " [SL]: " + n.message.value
  {
    Render(n.firstname) + " " + Render(n.lastname) + " [SL]: " + n.message.value
  }

  /** The MQTT `message` handler: the unresolved-channel check, then the type
      check, the case-insensitive group check and the echo filter. */
  function Inbound(cfg: Config, cell: Option<string>, n: Notification): (o: InboundOutcome)
    requires InboundDefined(cfg, cell, n)
    ensures o.ErrorUnresolved? <==> cell.None?
    ensures cell.Some? && n.kind != Some("group") ==> o == Drop
    ensures n.message.Some? && MatchesEcho(n.message.value) ==> !o.Send?
    ensures o.Send? ==> cell == Some(o.channelId)
  {
    if cell.None? then ErrorUnresolved
    else if n.kind != Some("group") then Drop
    else if Upper(n.group.value) != Upper(cfg.group) then Drop
    else if MatchesEcho(n.message.value) then Drop
    else Send(cell.value, SecondLifeLine(n))
  }

  /** Exactly the notifications of type "group", for the configured group up to
      letter case, and not bearing the echo pattern are sent, to the stored
      channel and in the "first last [SL]: message" form. */
  lemma InboundSendIff(cfg: Config, cell: Option<string>, n: Notification)
    requires InboundDefined(cfg, cell, n)
    ensures Inbound(cfg, cell, n).Send? <==>
      && cell.Some?
      && n.kind == Some("group")
      && n.group.Some? && DifferOnlyInCase(n.group.value, cfg.group)
      && n.message.Some? && !MatchesEcho(n.message.value)
    ensures Inbound(cfg, cell, n).Send? ==>
      Inbound(cfg, cell, n) == Send(cell.value, SecondLifeLine(n))
  {
    if n.group.Some? {
      UpperEqualIff(n.group.value, cfg.group);
    }
  }

  // ---------------------------------------------------------------------------
  // Chat to broker

  /** A Discord message event, reduced to the fields the handler reads. */
  datatype ChatMessage = ChatMessage(
    authorIsBot: bool,
    username: string,
    discriminator: string,
    content: string,
    attachments: seq<string>,  // the attachment URLs, in collection order
    channelId: string,
    guildName: string,
    channelType: string
  )

  /** A publication on the broker: the topic and the ordered key/value pairs
      of the query-string command. */
  datatype Publish = Publish(topic: string, fields: seq<(string, string)>)

  /** The text the attachment loop adds: " " + url for each attachment, in order. */
  function Appended(urls: seq<string>): (r: string)
    ensures |r| >= |urls|
  {
    if urls == [] then "" else Appended(urls[..|urls| - 1]) + " " + urls[|urls| - 1]
  }

  /** The content followed by every attachment URL, each after one space. */
  function MessageContent(content: string, urls: seq<string>): (mc: string)
    ensures |mc| >= |content| + |urls|
    ensures mc[..|content|] == content
  {
    content + Appended(urls)
  }

  /** The attachment loop: `messageContent` grows by " " + url per attachment. */
  method BuildContent(content: string, urls: seq<string>) returns (mc: string)
    ensures mc == MessageContent(content, urls)
  {
    mc := content;
    for i := 0 to |urls|
      invariant mc == content + Appended(urls[..i])
    {
      assert urls[..i + 1][..i] == urls[..i];
      mc := mc + " " + urls[i];
    }
    assert urls[..|urls|] == urls;
  }

  /** Each attachment adds at least a space, so the built content is empty
      exactly when the text is empty and there are no attachments. */
  lemma ContentEmptyIff(content: string, urls: seq<string>)
    ensures MessageContent(content, urls) == "" <==> content == "" && urls == []
  {
    if urls != [] {
      assert |Appended(urls)| >= 1;
    }
  }

  /** The appended text of a split attachment list is the two parts' texts in order. */
  lemma {:induction false} AppendedConcat(xs: seq<string>, ys: seq<string>)
    ensures Appended(xs + ys) == Appended(xs) + Appended(ys)
    decreases |ys|
  {
    if ys == [] {
      assert xs + ys == xs;
    } else {
      var zs := xs + ys;
      assert zs[..|zs| - 1] == xs + ys[..|ys| - 1];
      AppendedConcat(xs, ys[..|ys| - 1]);
    }
  }

  /** Read from the front: the first attachment comes first, after one space. */
  lemma AppendedFront(u: string, us: seq<string>)
    ensures Appended([u] + us) == " " + u + Appended(us)
  {
    AppendedConcat([u], us);
    assert Appended([u]) == Appended([]) + " " + u;
  }

  /** The line posted to the group: "username#discriminator [Discord]: content". */
  function Reply(username: string, discriminator: string, content: string): (r: string)
    ensures |r| == |username| + |discriminator| + |content| + 13
    ensures r[..|username|] == username && r[|username|] == '#'
    ensures r[|r| - |content| - 12..] == Marker + " " + content
  {
    username + "#" + discriminator + " [Discord]: " + content
  }

  /** The `tell` command fields, in the order they are encoded. */
  function TellCommand(cfg: Config, reply: string): (f: seq<(string, string)>)
    ensures |f| == 5
    ensures forall i, j :: 0 <= i < j < |f| ==> f[i].0 != f[j].0
    ensures f[|f| - 1] == ("message", reply)
  {
    [("command", "tell"), ("group", cfg.group), ("password", cfg.password),
     ("entity", "group"), ("message", reply)]
  }

  /** Reading the command back gives the values it was built from. */
  lemma TellCommandFields(cfg: Config, reply: string)
    ensures Lookup(TellCommand(cfg, reply), "command") == Some("tell")
    ensures Lookup(TellCommand(cfg, reply), "group") == Some(cfg.group)
    ensures Lookup(TellCommand(cfg, reply), "password") == Some(cfg.password)
    ensures Lookup(TellCommand(cfg, reply), "entity") == Some("group")
    ensures Lookup(TellCommand(cfg, reply), "message") == Some(reply)
  {
    var f := TellCommand(cfg, reply);
    assert Lookup(f[3..], "message") == Lookup(f[4..], "message") == Some(reply);
    assert Lookup(f[1..], "message") == Lookup(f[2..], "message") == Lookup(f[3..], "message");
    assert Lookup(f[2..], "entity") == Lookup(f[3..], "entity") == Some("group");
    assert Lookup(f[1..], "password") == Lookup(f[2..], "password") == Some(cfg.password);
  }

  /** The value of the first field named `key`. */
  function Lookup(fields: seq<(string, string)>, key: string): (v: Option<string>)
    ensures v.Some? <==> exists i :: 0 <= i < |fields| && fields[i].0 == key
  {
    if fields == [] then None
    else if fields[0].0 == key then Some(fields[0].1)
    else Lookup(fields[1..], key)
  }

  /** The Discord `message` handler: the bot check, content building, the
      empty-content check, the channel, guild and channel-type checks, and the
      `tell` command published on the group topic. */
  function Outbound(cfg: Config, cell: Option<string>, m: ChatMessage): (r: Option<Publish>)
    ensures r.Some? ==> r.value.topic == Topic(cfg)
    ensures r.Some? ==> cell == Some(m.channelId)
  {
    if m.authorIsBot then None
    else
      var mc := MessageContent(m.content, m.attachments);
      if mc == "" then None
      else if cell != Some(m.channelId) then None
      else if m.guildName != cfg.server then None
      else if m.channelType != "text" then None
      else Some(Publish(Topic(cfg), TellCommand(cfg, Reply(m.username, m.discriminator, mc))))
  }

  /** A message is published exactly when a human wrote it, it has text or an
      attachment, and it comes from the stored channel of the configured guild
      and is a text message; the command is then the group `tell` of the reply. */
  lemma OutboundPublishIff(cfg: Config, cell: Option<string>, m: ChatMessage)
    ensures Outbound(cfg, cell, m).Some? <==>
      && !m.authorIsBot
      && (m.content != "" || m.attachments != [])
      && cell == Some(m.channelId)
      && m.guildName == cfg.server
      && m.channelType == "text"
    ensures Outbound(cfg, cell, m).Some? ==>
      var mc := MessageContent(m.content, m.attachments);
      var p := Outbound(cfg, cell, m).value;
      && p.fields == TellCommand(cfg, Reply(m.username, m.discriminator, mc))
      && Lookup(p.fields, "command") == Some("tell")
      && Lookup(p.fields, "entity") == Some("group")
      && Lookup(p.fields, "message") == Some(Reply(m.username, m.discriminator, mc))
  {
    ContentEmptyIff(m.content, m.attachments);
    TellCommandFields(cfg, Reply(m.username, m.discriminator, MessageContent(m.content, m.attachments)));
  }

  /** The reply is its first line followed by the rest of the content. */
  lemma ReplySplit(username: string, discriminator: string, content: string, t: nat)
    requires t <= |content|
    ensures Reply(username, discriminator, content)
         == (username + "#" + discriminator + Marker + (" " + content[..t])) + content[t..]
  {
    var prefix := username + "#" + discriminator;
    var b, post := " " + content[..t], content[t..];
    assert b + post == " " + content by {
      assert content[..t] + post == content;
    }
    calc {
      (prefix + Marker + b) + post;
      (prefix + Marker) + (b + post);
      (prefix + Marker) + (" " + content);
      (prefix + (Marker + " ")) + content;
      Reply(username, discriminator, content);
    }
  }

  /** The reply always carries the echo pattern on its first line, whatever the
      content, as long as the username is a non-empty single line and the
      discriminator a non-empty run of digits. */
  lemma ReplyMatchesEcho(username: string, discriminator: string, content: string)
    requires username != [] && OnOneLine(username)
    requires discriminator != [] && AllDigits(discriminator)
    ensures MatchesEcho(Reply(username, discriminator, content))
  {
    var t := FirstTerminator(content);
    OnOneLineConcat(" ", content[..t]);
    var line := username + "#" + discriminator + Marker + (" " + content[..t]);
    LineMatches([], username, discriminator, " " + content[..t], content[t..]);
    assert [] + line + content[t..] == line + content[t..];
    ReplySplit(username, discriminator, content, t);
  }

  /** No relay loop: when the group echoes back what the bridge published, the
      broker-side handler does not send it to the chat channel again. */
  lemma NoEchoLoop(cfg: Config, cell: Option<string>, m: ChatMessage,
                   cell': Option<string>, n: Notification)
    requires Outbound(cfg, cell, m).Some?
    requires m.username != [] && OnOneLine(m.username)
    requires m.discriminator != [] && AllDigits(m.discriminator)
    requires n.message == Lookup(Outbound(cfg, cell, m).value.fields, "message")
    requires InboundDefined(cfg, cell', n)
    ensures !Inbound(cfg, cell', n).Send?
  {
    OutboundPublishIff(cfg, cell, m);
    ReplyMatchesEcho(m.username, m.discriminator, MessageContent(m.content, m.attachments));
  }

  // ---------------------------------------------------------------------------
  // Channel resolution

  /** A Discord channel as the client lists it. */
  datatype Channel = Channel(id: string, name: string, guildName: string)

  predicate IsTarget(cfg: Config, c: Channel)
  {
    c.name == cfg.channel && c.guildName == cfg.server
  }

  /** The index of the first channel at or after `from` with the configured
      name in the configured guild (the collection's `find`). */
  function FirstTarget(cfg: Config, cs: seq<Channel>, from: nat): (r: Option<nat>)
    requires from <= |cs|
    ensures r.Some? ==> from <= r.value < |cs| && IsTarget(cfg, cs[r.value])
    ensures r.Some? ==> forall j :: from <= j < r.value ==> !IsTarget(cfg, cs[j])
    ensures r.None? ==> forall j :: from <= j < |cs| ==> !IsTarget(cfg, cs[j])
    decreases |cs| - from
  {
    if from == |cs| then None
    else if IsTarget(cfg, cs[from]) then Some(from)
    else FirstTarget(cfg, cs, from + 1)
  }

  /** The channel cell after a `ready` event: the first matching channel's id,
      or the old cell when no channel matches. There is no guard for an
      already resolved cell. */
  function Resolve(cfg: Config, cell: Option<string>, cs: seq<Channel>): (r: Option<string>)
    ensures (forall j :: 0 <= j < |cs| ==> !IsTarget(cfg, cs[j])) ==> r == cell
    ensures forall k :: (0 <= k < |cs| && IsTarget(cfg, cs[k])
                         && forall j :: 0 <= j < k ==> !IsTarget(cfg, cs[j])) ==> r == Some(cs[k].id)
  {
    match FirstTarget(cfg, cs, 0)
    case None => cell
    case Some(k) => Some(cs[k].id)
  }

  /** A second `ready` with the same channels leaves the cell as the first left it. */
  lemma ResolveIdempotent(cfg: Config, cell: Option<string>, cs: seq<Channel>)
    ensures Resolve(cfg, Resolve(cfg, cell, cs), cs) == Resolve(cfg, cell, cs)
  {
  }
}
