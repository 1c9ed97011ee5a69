/** The Discord chat feed (DiscordChatFeed): relays a message posted in a
    linked Discord channel to its Eco channel, and from there on to every
    other Discord guild linked to the same Eco channel. Sends are recorded
    as values; the message formatters they would run are not part of this
    model. */
module ChatFeed {
  import opened Common
  import opened Links
  import opened Config

  datatype DiscordMessage = DiscordMessage(channel: DiscordChannel, authorUsername: string, content: string)

  /** An item of the data a feed trigger carries. */
  datatype TriggerDatum = MessageDatum(message: DiscordMessage) | OtherDatum

  datatype Send =
      /** EcoUtils.SendChatRaw of the message formatted for the Eco channel. */
    | EcoChat(ecoChannel: string, message: DiscordMessage)
      /** SendMessageAsync of the message's readable content, formatted for
          the Discord channel under the given author label. */
    | DiscordPost(channel: DiscordChannel, message: DiscordMessage, citizenName: string,
                  useTimestamp: bool, allowGlobalMention: bool, mentionPermissions: ChatLinkMentionPermissions)

  const BcgGuildId := 662813412413276191
  const ComfyGuildId := 433039858794233858
  const TestGuildId := 643910879200411668

  /** The short label of three known guilds; any other guild goes by its name. */
  function GetGuildName(g: Guild): string {
    if g.id == BcgGuildId then "BCG"
    else if g.id == ComfyGuildId then "Comfy"
    else if g.id == TestGuildId then "Test"
    else g.name
  }

  /** A known guild keeps its label whatever it is called; any other guild's
      label is its current name. */
  lemma GuildLabelIgnoresNameOfKnownGuilds(id: nat, name1: string, name2: string)
    ensures id in {BcgGuildId, ComfyGuildId, TestGuildId} ==>
      GetGuildName(Guild(id, name1)) == GetGuildName(Guild(id, name2)) && |GetGuildName(Guild(id, name1))| <= 5
    ensures id !in {BcgGuildId, ComfyGuildId, TestGuildId} ==> GetGuildName(Guild(id, name1)) == name1
  {
  }

  /** "[" + guild label + "] " + author user name. */
  function AuthorLabel(origin: Guild, username: string): string {
    "[" + GetGuildName(origin) + "] " + username
  }

  /** The guild label and the user name can be read back from the author label. */
  lemma AuthorLabelParts(origin: Guild, username: string)
    ensures var text := AuthorLabel(origin, username);
      var n := |GetGuildName(origin)|;
      && |text| == n + 3 + |username|
      && text[0] == '[' && text[1..n + 1] == GetGuildName(origin)
      && text[n + 1..n + 3] == "] " && text[n + 3..] == username
  {
  }

  predicate AllowGlobalMention(p: GlobalMentionPermission) {
    p == AnyUser
  }

  /** The post the fan-out makes for one target link. */
  function FanOutPost(link: ChatLink, m: DiscordMessage): Send {
    DiscordPost(link.channel, m, AuthorLabel(m.channel.guild, m.authorUsername),
                link.kind.useTimestamp, AllowGlobalMention(link.kind.hereAndEveryoneMentionPermission),
                link.kind.mentionPermissions)
  }

  predicate InOriginGuild(link: ChatLink, m: DiscordMessage) {
    link.Guild().id == m.channel.guild.id
  }

  /** Specification of the fan-out: one post, in order, for each target link
      outside the message's own guild. */
  function FanOut(targets: seq<ChatLink>, m: DiscordMessage): seq<Send> {
    if targets == [] then []
    else
      var last := targets[|targets| - 1];
      FanOut(targets[..|targets| - 1], m) + (if InOriginGuild(last, m) then [] else [FanOutPost(last, m)])
  }

  /** One more target adds at most its own post to the fan-out. */
  lemma FanOutStep(targets: seq<ChatLink>, i: nat, m: DiscordMessage)
    requires i < |targets|
    ensures FanOut(targets[..i + 1], m)
         == FanOut(targets[..i], m) + (if InOriginGuild(targets[i], m) then [] else [FanOutPost(targets[i], m)])
  {
    assert targets[..i + 1][..i] == targets[..i];
  }

  /** How many target links lie in the message's own guild. */
  function OriginGuildCount(targets: seq<ChatLink>, m: DiscordMessage): nat {
    if targets == [] then 0
    else OriginGuildCount(targets[..|targets| - 1], m) + (if InOriginGuild(targets[|targets| - 1], m) then 1 else 0)
  }

  /** Every post of the fan-out goes to a target outside the originating
      guild and is labelled with the originating guild and the author. */
  lemma {:induction false} FanOutPostsElsewhere(targets: seq<ChatLink>, m: DiscordMessage)
    ensures forall s :: s in FanOut(targets, m) ==>
      && s.DiscordPost?
      && s.channel.guild.id != m.channel.guild.id
      && s.citizenName == AuthorLabel(m.channel.guild, m.authorUsername)
      && exists l :: l in targets && !InOriginGuild(l, m) && FanOutPost(l, m) == s
  {
    if targets != [] {
      var init := targets[..|targets| - 1];
      FanOutPostsElsewhere(init, m);
      assert forall l :: l in init ==> l in targets;
    }
  }

  /** Every target outside the originating guild receives its post. */
  lemma {:induction false} FanOutReachesOtherGuilds(targets: seq<ChatLink>, m: DiscordMessage)
    ensures forall i :: 0 <= i < |targets| && !InOriginGuild(targets[i], m) ==>
      FanOutPost(targets[i], m) in FanOut(targets, m)
  {
    if targets != [] {
      var init := targets[..|targets| - 1];
      FanOutReachesOtherGuilds(init, m);
      forall i | 0 <= i < |targets| - 1
        ensures targets[i] == init[i]
      {
      }
    }
  }

  /** One post per target outside the originating guild. */
  lemma {:induction false} FanOutLength(targets: seq<ChatLink>, m: DiscordMessage)
    ensures |FanOut(targets, m)| + OriginGuildCount(targets, m) == |targets|
  {
    if targets != [] {
      FanOutLength(targets[..|targets| - 1], m);
    }
  }

  /** The Eco sends among a list of sends, in order. */
  function EcoSends(sends: seq<Send>): seq<Send> {
    if sends == [] then []
    else EcoSends(sends[..|sends| - 1]) + (if sends[|sends| - 1].EcoChat? then [sends[|sends| - 1]] else [])
  }

  lemma {:induction false} EcoSendsConcat(a: seq<Send>, b: seq<Send>)
    ensures EcoSends(a + b) == EcoSends(a) + EcoSends(b)
  {
    if b == [] {
      assert a + b == a;
    } else {
      assert (a + b)[..|a + b| - 1] == a + b[..|b| - 1];
      EcoSendsConcat(a, b[..|b| - 1]);
    }
  }

  lemma {:induction false} EcoSendsOfFanOut(targets: seq<ChatLink>, m: DiscordMessage)
    ensures EcoSends(FanOut(targets, m)) == []
  {
    if targets != [] {
      var init := targets[..|targets| - 1];
      var last := targets[|targets| - 1];
      EcoSendsOfFanOut(init, m);
      EcoSendsConcat(FanOut(init, m), if InOriginGuild(last, m) then [] else [FanOutPost(last, m)]);
      assert EcoSends([FanOutPost(last, m)]) == EcoSends([]) + [];
    }
  }

  /** What ForwardMessageToEcoChannel sends: the message to the Eco channel,
      then the fan-out to the valid chat links of that Eco channel. */
  function EcoForward(chatLinks: seq<ChatLink>, m: DiscordMessage, ecoChannel: string): seq<Send> {
    [EcoChat(ecoChannel, m)] + FanOut(ChatLinksForEcoChannel(chatLinks, ecoChannel), m)
  }

  /** The direction test of UpdateInternal, as written: it admits links that
      relay from Eco to Discord (see Findings in README). */
  predicate RelayedByUpdateAsWritten(link: ChatLink) {
    link.kind.direction == EcoToDiscord || link.kind.direction == Duplex
  }

  /** The direction test of ShouldRun. */
  predicate RelaysDiscordToEco(link: ChatLink) {
    link.kind.direction == DiscordToEco || link.kind.direction == Duplex
  }

  /** The links among `links` that UpdateInternal's filter admits, in order. */
  function AdmittedAsWritten(links: seq<ChatLink>): seq<ChatLink> {
    if links == [] then []
    else
      var last := links[|links| - 1];
      AdmittedAsWritten(links[..|links| - 1]) + (if RelayedByUpdateAsWritten(last) then [last] else [])
  }

  /** The as-written filter is the Where with UpdateInternal's direction test. */
  lemma {:induction false} AdmittedIsFilter(links: seq<ChatLink>)
    ensures AdmittedAsWritten(links) == Filter(links, RelayedByUpdateAsWritten)
  {
    if links != [] {
      var init := links[..|links| - 1];
      var last := links[|links| - 1];
      AdmittedIsFilter(init);
      FilterAppend(init, last, RelayedByUpdateAsWritten);
      assert init + [last] == links;
    }
  }

  lemma AdmittedStep(links: seq<ChatLink>, i: nat)
    requires i < |links|
    ensures AdmittedAsWritten(links[..i + 1])
         == AdmittedAsWritten(links[..i]) + (if RelayedByUpdateAsWritten(links[i]) then [links[i]] else [])
  {
    assert links[..i + 1][..i] == links[..i];
  }

  /** The links UpdateInternal forwards through, in order. */
  function RelayLinksAsWritten(chatLinks: seq<ChatLink>, ch: DiscordChannel): seq<ChatLink> {
    AdmittedAsWritten(ChatLinksForDiscordChannel(chatLinks, ch))
  }

  /** All sends of forwarding through each relay link in turn. */
  function RelaySends(chatLinks: seq<ChatLink>, m: DiscordMessage, relay: seq<ChatLink>): seq<Send> {
    if relay == [] then []
    else RelaySends(chatLinks, m, relay[..|relay| - 1]) + EcoForward(chatLinks, m, relay[|relay| - 1].kind.ecoChannel)
  }

  /** Forwarding through one link sends exactly one message to Eco, first. */
  lemma EcoSendsOfForward(chatLinks: seq<ChatLink>, m: DiscordMessage, ecoChannel: string)
    ensures EcoSends(EcoForward(chatLinks, m, ecoChannel)) == [EcoChat(ecoChannel, m)]
  {
    var fan := FanOut(ChatLinksForEcoChannel(chatLinks, ecoChannel), m);
    EcoSendsOfFanOut(ChatLinksForEcoChannel(chatLinks, ecoChannel), m);
    EcoSendsConcat([EcoChat(ecoChannel, m)], fan);
    assert EcoSends([EcoChat(ecoChannel, m)]) == EcoSends([]) + [EcoChat(ecoChannel, m)];
  }

  lemma RelaySendsStep(chatLinks: seq<ChatLink>, m: DiscordMessage, done: seq<ChatLink>, link: ChatLink)
    ensures RelaySends(chatLinks, m, done + [link]) == RelaySends(chatLinks, m, done) + EcoForward(chatLinks, m, link.kind.ecoChannel)
  {
    assert (done + [link])[..|done|] == done;
  }

  /** Each relay link contributes exactly one Eco send, so the Eco sends of
      an update are the relay links' Eco channels, in order. */
  lemma {:induction false} RelaySendsEcoChannels(chatLinks: seq<ChatLink>, m: DiscordMessage, relay: seq<ChatLink>)
    ensures var eco := EcoSends(RelaySends(chatLinks, m, relay));
      |eco| == |relay| && forall i :: 0 <= i < |relay| ==> eco[i] == EcoChat(relay[i].kind.ecoChannel, m)
  {
    if relay != [] {
      var init := relay[..|relay| - 1];
      var last := relay[|relay| - 1];
      var forward := EcoForward(chatLinks, m, last.kind.ecoChannel);
      assert RelaySends(chatLinks, m, relay) == RelaySends(chatLinks, m, init) + forward;
      RelaySendsEcoChannels(chatLinks, m, init);
      EcoSendsOfForward(chatLinks, m, last.kind.ecoChannel);
      EcoSendsConcat(RelaySends(chatLinks, m, init), forward);
      var eco := EcoSends(RelaySends(chatLinks, m, init)) + [EcoChat(last.kind.ecoChannel, m)];
      forall i | 0 <= i < |relay|
        ensures eco[i] == EcoChat(relay[i].kind.ecoChannel, m)
      {
        if i < |init| {
          assert relay[i] == init[i];
        }
      }
    }
  }

  // A guild with an Eco-to-Discord link on #general and a Discord-to-Eco
  // link on #trade.
  const ExampleGeneral := DiscordChannel(10, "general", Guild(1, "GuildA"), false)
  const ExamplePerms := ChatLinkMentionPermissions(false, false, false)
  const ExampleOutbound: ChatLink :=
    ChannelLink("general", true, ExampleGeneral, Chat("General", EcoToDiscord, false, NoUser, ExamplePerms))
  const ExampleInbound: ChatLink :=
    ChannelLink("trade", true, ExampleGeneral.(id := 11, name := "trade"), Chat("Trade", DiscordToEco, false, NoUser, ExamplePerms))

  /** Only the #general link serves #general. */
  lemma ExampleLinksOfGeneral()
    ensures ChatLinksForDiscordChannel([ExampleOutbound, ExampleInbound], ExampleGeneral) == [ExampleOutbound]
  {
    var serves := (l: ChatLink) => ServesDiscordChannel(l, ExampleGeneral);
    assert !serves(ExampleInbound) by {
      assert |ToLower("trade")| != |ToLower("general")|;
      assert |ToLower("trade")| != |ToLower(NatToString(10))|;
    }
    assert serves(ExampleOutbound);
    assert [ExampleOutbound, ExampleInbound][1..] == [ExampleInbound];
    assert [ExampleInbound][1..] == [];
    assert Filter([ExampleInbound], serves) == [];
  }

  /** With the filter as written, the feed runs because of the #trade link,
      and a message posted in #general is carried into Eco through the
      Eco-to-Discord link. */
  lemma EcoToDiscordLinkCarriesDiscordMessages()
    ensures AnyInboundLink([ExampleOutbound, ExampleInbound])
    ensures RelayLinksAsWritten([ExampleOutbound, ExampleInbound], ExampleGeneral) == [ExampleOutbound]
    ensures !RelaysDiscordToEco(ExampleOutbound)
  {
    ExampleLinksOfGeneral();
    assert [ExampleOutbound][..0] == [];
    assert AdmittedAsWritten([ExampleOutbound]) == [ExampleOutbound];
    assert [ExampleOutbound, ExampleInbound][1] == ExampleInbound;
  }

  /** The corrected filter relays nothing from #general in the same setting. */
  lemma CorrectedUpdateIgnoresOutboundLink()
    ensures RelayLinks([ExampleOutbound, ExampleInbound], ExampleGeneral) == []
  {
    ExampleLinksOfGeneral();
    assert [ExampleOutbound][1..] == [];
  }

  /** The links the update evidently should relay through: those that carry
      messages from Discord to Eco, the same test ShouldRun uses. */
  function RelayLinks(chatLinks: seq<ChatLink>, ch: DiscordChannel): (r: seq<ChatLink>)
    ensures forall l :: l in r <==> l in chatLinks && ServesDiscordChannel(l, ch) && RelaysDiscordToEco(l)
    ensures forall l :: l in r ==> l.valid
    ensures r != [] ==> AnyInboundLink(chatLinks)
  {
    var served := ChatLinksForDiscordChannel(chatLinks, ch);
    FilterContents(chatLinks, (l: ChatLink) => ServesDiscordChannel(l, ch));
    FilterContents(served, RelaysDiscordToEco);
    var r := Filter(served, RelaysDiscordToEco);
    assert r != [] ==> r[0] in r;
    r
  }

  /** The existence test of ShouldRun. */
  predicate AnyInboundLink(chatLinks: seq<ChatLink>) {
    exists i :: 0 <= i < |chatLinks| && chatLinks[i].valid && RelaysDiscordToEco(chatLinks[i])
  }

  /** DiscordChatFeed: the operation counter and the sends made so far. */
  class DiscordChatFeed {
    var opsCount: nat
    var sent: seq<Send>

    constructor ()
      ensures opsCount == 0 && sent == []
    {
      opsCount := 0;
      sent := [];
    }

    /** ShouldRun: some valid chat link relays from Discord to Eco. */
    method ShouldRun(chatLinks: seq<ChatLink>) returns (r: bool)
      ensures r <==> AnyInboundLink(chatLinks)
    {
      for i := 0 to |chatLinks|
        invariant forall j :: 0 <= j < i ==> !(chatLinks[j].valid && RelaysDiscordToEco(chatLinks[j]))
      {
        var link := chatLinks[i];
        if link.valid && (link.kind.direction == DiscordToEco || link.kind.direction == Duplex) {
          return true;
        }
      }
      return false;
    }

    /** UpdateInternal: for a message trigger, forward the message once per
        valid chat link of its channel that the direction filter admits. */
    method UpdateInternal(chatLinks: seq<ChatLink>, data: seq<TriggerDatum>)
      requires |data| >= 1
      modifies this`opsCount, this`sent
      ensures data[0].OtherDatum? ==> opsCount == old(opsCount) && sent == old(sent)
      ensures data[0].MessageDatum? ==>
        var m := data[0].message;
        var relay := RelayLinksAsWritten(chatLinks, m.channel);
        && sent == old(sent) + RelaySends(chatLinks, m, relay)
        && opsCount == old(opsCount) + |relay|
    {
      if !data[0].MessageDatum? {
        return;
      }
      var message := data[0].message;
      var links := ChatLinksForDiscordChannel(chatLinks, message.channel);
      ForwardThroughAdmitted(chatLinks, message, links);
    }

    /** The loop of UpdateInternal: forward once per link the direction
        filter admits, in order. */
    method ForwardThroughAdmitted(chatLinks: seq<ChatLink>, message: DiscordMessage, links: seq<ChatLink>)
      modifies this`opsCount, this`sent
      ensures sent == old(sent) + RelaySends(chatLinks, message, AdmittedAsWritten(links))
      ensures opsCount == old(opsCount) + |AdmittedAsWritten(links)|
    {
      ghost var done: seq<ChatLink> := [];
      for i := 0 to |links|
        invariant done == AdmittedAsWritten(links[..i])
        invariant sent == old(sent) + RelaySends(chatLinks, message, done)
        invariant opsCount == old(opsCount) + |done|
      {
        var chatLink := links[i];
        AdmittedStep(links, i);
        if chatLink.kind.direction == EcoToDiscord || chatLink.kind.direction == Duplex {
          ForwardMessageToEcoChannel(chatLinks, message, chatLink.kind.ecoChannel);
          RelaySendsStep(chatLinks, message, done, chatLink);
          done := done + [chatLink];
        }
      }
      assert links[..|links|] == links;
    }

    /** ForwardMessageToEcoChannel: send to Eco, fan out to the other guilds
        linked to the same Eco channel, and count one operation. */
    method ForwardMessageToEcoChannel(chatLinks: seq<ChatLink>, message: DiscordMessage, ecoChannel: string)
      modifies this`opsCount, this`sent
      ensures sent == old(sent) + EcoForward(chatLinks, message, ecoChannel)
      ensures opsCount == old(opsCount) + 1
    {
      sent := sent + [EcoChat(ecoChannel, message)];
      var targets := ChatLinksForEcoChannel(chatLinks, ecoChannel);
      ForwardToOtherGuilds(message, targets);
      opsCount := opsCount + 1;
    }

    /** The loop of ForwardMessageToEcoChannel: post to each target outside
        the message's own guild, in order. */
    method ForwardToOtherGuilds(message: DiscordMessage, targets: seq<ChatLink>)
      modifies this`sent
      ensures sent == old(sent) + FanOut(targets, message)
    {
      for i := 0 to |targets|
        invariant sent == old(sent) + FanOut(targets[..i], message)
      {
        var chatLink := targets[i];
        FanOutStep(targets, i, message);
        if chatLink.Guild().id == message.channel.guild.id {
          continue;
        }
        ForwardMessageToDiscordChannel(message, AuthorLabel(message.channel.guild, message.authorUsername),
                                       chatLink.channel, chatLink.kind.useTimestamp,
                                       chatLink.kind.hereAndEveryoneMentionPermission, chatLink.kind.mentionPermissions);
      }
      assert targets[..|targets|] == targets;
    }

    /** ForwardMessageToDiscordChannel: post to the channel, allowing @here
        and @everyone only for links whose permission is AnyUser. */
    method ForwardMessageToDiscordChannel(message: DiscordMessage, citizenName: string, channel: DiscordChannel,
                                          useTimestamp: bool, globalMentionPermission: GlobalMentionPermission,
                                          chatlinkPermissions: ChatLinkMentionPermissions)
      modifies this`sent
      ensures sent == old(sent) + [DiscordPost(channel, message, citizenName, useTimestamp,
                                               globalMentionPermission == AnyUser, chatlinkPermissions)]
    {
      var allowGlobalMention := globalMentionPermission == GlobalMentionPermission.AnyUser;
      sent := sent + [DiscordPost(channel, message, citizenName, useTimestamp, allowGlobalMention, chatlinkPermissions)];
    }
  }
}
