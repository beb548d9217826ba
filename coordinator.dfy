/** The process-wide state of the bridge and the event handlers registered on
    the two clients. The only mutable state is the Discord channel id, which
    starts unresolved and is written only by the `ready` handler. */
module Coordinator {
  import opened Wrappers
  import opened Relay

  class Bridge {
    const cfg: Config
    /** The resolved Discord channel id; `None` stands for the initial -1, a
        number that no channel id (a string) is strictly equal to. */
    var channelId: Option<string>

    constructor (cfg: Config)
      ensures this.cfg == cfg
      ensures channelId == None
    {
      this.cfg := cfg;
      channelId := None;
    }

    /** The MQTT `message` handler. It only reads the channel id. */
    method OnNotification(n: Notification) returns (o: InboundOutcome)
      requires InboundDefined(cfg, channelId, n)
      ensures o == Inbound(cfg, channelId, n)
    {
      o := Inbound(cfg, channelId, n);
    }

    /** The Discord `message` handler. It only reads the channel id; the
        attachment URLs are appended one at a time. */
    method OnChatMessage(m: ChatMessage) returns (r: Option<Publish>)
      ensures r == Outbound(cfg, channelId, m)
    {
      if m.authorIsBot {
        return None;
      }
      var mc := BuildContent(m.content, m.attachments);
      if |mc| == 0 || channelId != Some(m.channelId) || m.guildName != cfg.server
         || m.channelType != "text" {
        return None;
      }
      r := Some(Publish(Topic(cfg), TellCommand(cfg, Reply(m.username, m.discriminator, mc))));
    }

    /** The Discord `ready` handler: stores the id of the first channel with
        the configured name in the configured guild, and reports whether none
        was found (the cell then keeps its value). */
    method OnReady(channels: seq<Channel>) returns (notFound: bool)
      modifies this
      ensures notFound <==> forall j :: 0 <= j < |channels| ==> !IsTarget(cfg, channels[j])
      ensures channelId == Resolve(cfg, old(channelId), channels)
    {
      var k := FirstTarget(cfg, channels, 0);
      if k.None? {
        notFound := true;
        return;
      }
      notFound := false;
      channelId := Some(channels[k.value].id);
    }
  }
}
