/** The plugin configuration (DLConfig / DLConfigData): the settings record,
    the flat registry of every configured channel link, the lookups over
    it, the repair of bad settings on save and the reaction to edits. */
module Config {
  import opened Common
  import opened Links

  // ---------------------------------------------------------------------
  // Constants

  /** Values of DLConstants, which is not part of this model: the invite
      link token and the largest number of top currency holders a display
      may show. */
  datatype Constants = Constants(inviteCommandToken: string, maxTopCurrencyHolderDisplayLimit: int)

  const DefaultEcoBotName := "DiscordLink"
  const DefaultDiscordCommandPrefix := "?"
  const DefaultMaxMintedCurrencies := 1
  const DefaultMaxPersonalCurrencies := 3
  const DefaultMaxTopCurrencyHolderCount := 3
  const DefaultMaxTrackedTradesPerUser := 5

  function DefaultInviteMessage(c: Constants): string {
    "Join us on Discord!\n" + c.inviteCommandToken
  }

  // ---------------------------------------------------------------------
  // The settings record (DLConfigData); null strings are modelled as "".

  datatype ConfigData = ConfigData(
    discordServer: string,
    botToken: string,
    ecoBotName: string,
    adminRoles: seq<string>,
    serverName: string,
    webServerAddress: string,
    discordCommandPrefix: string,
    chatChannelLinks: seq<ChatLink>,
    tradeFeedChannels: seq<ChannelLink>,
    craftingFeedChannels: seq<ChannelLink>,
    serverStatusFeedChannels: seq<ChannelLink>,
    playerStatusFeedChannels: seq<ChannelLink>,
    electionFeedChannels: seq<ChannelLink>,
    serverInfoDisplayChannels: seq<ChannelLink>,
    workPartyDisplayChannels: seq<ChannelLink>,
    playerListDisplayChannels: seq<ChannelLink>,
    electionDisplayChannels: seq<ChannelLink>,
    currencyDisplayChannels: seq<CurrencyLink>,
    snippetInputChannels: seq<ChannelLink>,
    discordCommandChannels: seq<ChannelLink>,
    maxTradeWatcherDisplaysPerUser: int,
    inviteMessage: string)

  /** The flat registry: the thirteen typed collections, one after the other,
      in the order BuildChanneLinkList adds them. */
  function AllLinks(d: ConfigData): seq<ChannelLink> {
    d.chatChannelLinks + d.tradeFeedChannels + d.craftingFeedChannels
    + d.serverStatusFeedChannels + d.playerStatusFeedChannels + d.electionFeedChannels
    + d.serverInfoDisplayChannels + d.workPartyDisplayChannels + d.playerListDisplayChannels
    + d.electionDisplayChannels + d.currencyDisplayChannels + d.snippetInputChannels
    + d.discordCommandChannels
  }

  /** The registry holds every configured link and nothing else; the chat
      links come first and the command-channel links last. */
  lemma AllLinksContents(d: ConfigData)
    ensures |AllLinks(d)| == |d.chatChannelLinks| + |d.tradeFeedChannels| + |d.craftingFeedChannels|
      + |d.serverStatusFeedChannels| + |d.playerStatusFeedChannels| + |d.electionFeedChannels|
      + |d.serverInfoDisplayChannels| + |d.workPartyDisplayChannels| + |d.playerListDisplayChannels|
      + |d.electionDisplayChannels| + |d.currencyDisplayChannels| + |d.snippetInputChannels|
      + |d.discordCommandChannels|
    ensures forall l :: l in AllLinks(d) <==>
      l in d.chatChannelLinks || l in d.tradeFeedChannels || l in d.craftingFeedChannels
      || l in d.serverStatusFeedChannels || l in d.playerStatusFeedChannels || l in d.electionFeedChannels
      || l in d.serverInfoDisplayChannels || l in d.workPartyDisplayChannels || l in d.playerListDisplayChannels
      || l in d.electionDisplayChannels || l in d.currencyDisplayChannels || l in d.snippetInputChannels
      || l in d.discordCommandChannels
    ensures AllLinks(d)[..|d.chatChannelLinks|] == d.chatChannelLinks
    ensures AllLinks(d)[|AllLinks(d)| - |d.discordCommandChannels|..] == d.discordCommandChannels
  {
  }

  // ---------------------------------------------------------------------
  // Lookups (DLConfig.ChannelLinkForDiscordChannel, ChatLinkForEcoChannel,
  // ChatLinkForDiscordChannel) and their all-matches counterparts.

  predicate NamesDiscordChannel(link: ChannelLink, discordChannelName: string) {
    link.valid && EqualsIgnoreCase(link.discordChannel, discordChannelName)
  }

  predicate ServesEcoChannel(link: ChatLink, ecoChannelName: string) {
    link.valid && EqualsIgnoreCase(link.kind.ecoChannel, ecoChannelName)
  }

  predicate ServesDiscordChannel(link: ChatLink, ch: DiscordChannel) {
    link.valid
    && (EqualsIgnoreCase(link.discordChannel, ch.name) || EqualsIgnoreCase(link.discordChannel, NatToString(ch.id)))
  }

  /** The first valid registry link configured with that channel name. */
  function ChannelLinkForDiscordChannel(registry: seq<ChannelLink>, discordChannelName: string): (r: Option<ChannelLink>)
    ensures r.Some? ==> r.value in registry && NamesDiscordChannel(r.value, discordChannelName)
    ensures r.None? <==> forall l :: l in registry ==> !NamesDiscordChannel(l, discordChannelName)
    ensures r.Some? ==> exists i :: 0 <= i < |registry| && registry[i] == r.value
                                    && forall j :: 0 <= j < i ==> !NamesDiscordChannel(registry[j], discordChannelName)
  {
    FirstWhere(registry, l => NamesDiscordChannel(l, discordChannelName))
  }

  function ChatLinkForEcoChannel(chatLinks: seq<ChatLink>, ecoChannelName: string): Option<ChatLink> {
    FirstWhere(chatLinks, (l: ChatLink) => ServesEcoChannel(l, ecoChannelName))
  }

  function ChatLinkForDiscordChannel(chatLinks: seq<ChatLink>, ch: DiscordChannel): Option<ChatLink> {
    FirstWhere(chatLinks, (l: ChatLink) => ServesDiscordChannel(l, ch))
  }

  /** Every valid chat link for an Eco channel, in configuration order. */
  function ChatLinksForEcoChannel(chatLinks: seq<ChatLink>, ecoChannelName: string): seq<ChatLink> {
    Filter(chatLinks, (l: ChatLink) => ServesEcoChannel(l, ecoChannelName))
  }

  /** Every valid chat link for a Discord channel, in configuration order. */
  function ChatLinksForDiscordChannel(chatLinks: seq<ChatLink>, ch: DiscordChannel): seq<ChatLink> {
    Filter(chatLinks, (l: ChatLink) => ServesDiscordChannel(l, ch))
  }

  /** The single-link lookups return the first of the all-matches lookups. */
  lemma SingleLookupsAreFirstMatches(chatLinks: seq<ChatLink>, ecoChannelName: string, ch: DiscordChannel)
    ensures var all := ChatLinksForEcoChannel(chatLinks, ecoChannelName);
      ChatLinkForEcoChannel(chatLinks, ecoChannelName) == if all == [] then None else Some(all[0])
    ensures var all := ChatLinksForDiscordChannel(chatLinks, ch);
      ChatLinkForDiscordChannel(chatLinks, ch) == if all == [] then None else Some(all[0])
  {
    FirstWhereIsHeadOfFilter(chatLinks, (l: ChatLink) => ServesEcoChannel(l, ecoChannelName));
    FirstWhereIsHeadOfFilter(chatLinks, (l: ChatLink) => ServesDiscordChannel(l, ch));
  }

  // ---------------------------------------------------------------------
  // DLConfigData.WebServerAddressEndsWithPort

  function WebServerAddressEndsWithPort(address: string): bool {
    if |address| == 0 then false
    else
      var lastColonPos := LastIndexOf(address, ':');
      if lastColonPos == -1 || lastColonPos >= |address| then false
      else AllDigits(address[lastColonPos + 1..])
  }

  /** An address ends with a port exactly when some colon in it is followed
      by digits only (possibly none). */
  lemma EndsWithPortIff(address: string)
    ensures WebServerAddressEndsWithPort(address) <==>
      exists k :: 0 <= k < |address| && address[k] == ':' && AllDigits(address[k + 1..])
  {
    if k :| 0 <= k < |address| && address[k] == ':' && AllDigits(address[k + 1..]) {
      var p := LastIndexOf(address, ':');
    }
  }

  /** Appending ":" and a port number yields an address that ends with a
      port, whatever came before; an address without a colon never does. */
  lemma PortSuffixIsRecognised(host: string, port: nat)
    ensures WebServerAddressEndsWithPort(host + ":" + NatToString(port))
    ensures WebServerAddressEndsWithPort(host + ":")
    ensures ':' !in host ==> !WebServerAddressEndsWithPort(host)
  {
    var a := host + ":" + NatToString(port);
    assert a[|host|] == ':' && a[|host| + 1..] == NatToString(port);
    EndsWithPortIff(a);
    var b := host + ":";
    assert b[|host|] == ':' && b[|host| + 1..] == [];
    EndsWithPortIff(b);
  }

  // ---------------------------------------------------------------------
  // The repairs DLConfig.Save makes

  predicate CurrencyLinkNeedsCorrection(link: CurrencyLink, limit: int) {
    link.kind.maxMintedCount < 0 || link.kind.maxPersonalCount < 0
    || link.kind.maxTopCurrencyHolderCount < 0 || link.kind.maxTopCurrencyHolderCount > limit
  }

  function CorrectedCurrencyLink(link: CurrencyLink, limit: int): CurrencyLink {
    var k := link.kind;
    link.(kind := Currency(
      if k.maxMintedCount < 0 then DefaultMaxMintedCurrencies else k.maxMintedCount,
      if k.maxPersonalCount < 0 then DefaultMaxPersonalCurrencies else k.maxPersonalCount,
      if k.maxTopCurrencyHolderCount < 0 || k.maxTopCurrencyHolderCount > limit
      then DefaultMaxTopCurrencyHolderCount else k.maxTopCurrencyHolderCount))
  }

  function CorrectedCurrencyLinks(links: seq<CurrencyLink>, limit: int): (r: seq<CurrencyLink>)
    ensures |r| == |links|
  {
    seq(|links|, i requires 0 <= i < |links| => CorrectedCurrencyLink(links[i], limit))
  }

  /** True when Save counts a correction from its own checks: an empty bot
      name, a command prefix that changed to empty, an empty invite message,
      or a currency link out of range. A negative trade-watcher maximum is
      repaired but not counted. */
  predicate CorrectionNeeded(d: ConfigData, prev: ConfigData, c: Constants) {
    || d.ecoBotName == ""
    || (d.discordCommandPrefix != prev.discordCommandPrefix && d.discordCommandPrefix == "")
    || d.inviteMessage == ""
    || exists i :: 0 <= i < |d.currencyDisplayChannels|
                   && CurrencyLinkNeedsCorrection(d.currencyDisplayChannels[i], c.maxTopCurrencyHolderDisplayLimit)
  }

  /** The settings as Save leaves them. */
  function Corrected(d: ConfigData, prev: ConfigData, c: Constants): ConfigData {
    d.(ecoBotName := if d.ecoBotName == "" then DefaultEcoBotName else d.ecoBotName,
       discordCommandPrefix :=
         if d.discordCommandPrefix != prev.discordCommandPrefix && d.discordCommandPrefix == ""
         then DefaultDiscordCommandPrefix else d.discordCommandPrefix,
       maxTradeWatcherDisplaysPerUser :=
         if d.maxTradeWatcherDisplaysPerUser < 0 then DefaultMaxTrackedTradesPerUser
         else d.maxTradeWatcherDisplaysPerUser,
       inviteMessage := if d.inviteMessage == "" then DefaultInviteMessage(c) else d.inviteMessage,
       currencyDisplayChannels := CorrectedCurrencyLinks(d.currencyDisplayChannels, c.maxTopCurrencyHolderDisplayLimit))
  }

  /** Every repaired field holds a value its check accepts, and nothing but
      the repaired fields changes. (The top-holder reset value 3 passes its
      own check only if the display limit is at least 3.) */
  lemma CorrectedFieldsPassTheirChecks(d: ConfigData, prev: ConfigData, c: Constants)
    requires c.maxTopCurrencyHolderDisplayLimit >= DefaultMaxTopCurrencyHolderCount
    ensures var r := Corrected(d, prev, c);
      && r.ecoBotName != ""
      && r.inviteMessage != ""
      && r.maxTradeWatcherDisplaysPerUser >= 0
      && (r.discordCommandPrefix == "" ==> r.discordCommandPrefix == prev.discordCommandPrefix)
      && (forall i :: 0 <= i < |r.currencyDisplayChannels| ==>
            !CurrencyLinkNeedsCorrection(r.currencyDisplayChannels[i], c.maxTopCurrencyHolderDisplayLimit))
      && AllLinks(r)[..|d.chatChannelLinks|] == AllLinks(d)[..|d.chatChannelLinks|]
      && r.botToken == d.botToken && r.discordServer == d.discordServer
  {
  }

  /** Save counts a correction exactly when it changes some field other than
      the trade-watcher maximum. */
  lemma {:induction false} CorrectionNeededIffChanged(d: ConfigData, prev: ConfigData, c: Constants)
    requires c.maxTopCurrencyHolderDisplayLimit >= DefaultMaxTopCurrencyHolderCount
    ensures CorrectionNeeded(d, prev, c) <==>
      Corrected(d, prev, c).(maxTradeWatcherDisplaysPerUser := d.maxTradeWatcherDisplaysPerUser) != d
  {
    var limit := c.maxTopCurrencyHolderDisplayLimit;
    var r := Corrected(d, prev, c);
    if CorrectionNeeded(d, prev, c) {
      if i :| 0 <= i < |d.currencyDisplayChannels|
              && CurrencyLinkNeedsCorrection(d.currencyDisplayChannels[i], limit) {
        assert r.currencyDisplayChannels[i] != d.currencyDisplayChannels[i];
      }
    } else {
      assert r.currencyDisplayChannels == d.currencyDisplayChannels;
    }
  }

  /** An immediate second Save, against the snapshot the first one took,
      finds nothing to correct and changes nothing. */
  lemma {:induction false} SecondSaveMakesNoCorrection(d: ConfigData, prev: ConfigData, c: Constants)
    requires c.maxTopCurrencyHolderDisplayLimit >= DefaultMaxTopCurrencyHolderCount
    ensures var r := Corrected(d, prev, c);
      !CorrectionNeeded(r, r, c) && Corrected(r, r, c) == r
  {
    var r := Corrected(d, prev, c);
    CorrectedFieldsPassTheirChecks(d, prev, c);
    CorrectionNeededIffChanged(r, r, c);
  }

  // ---------------------------------------------------------------------
  // Static part of DLConfig.VerifyConfig

  datatype VerificationFlags = VerificationFlags(staticSettings: bool, channelLinks: bool)

  const VerifyStatic := VerificationFlags(true, false)
  const VerifyChannelLinks := VerificationFlags(false, true)
  const VerifyAll := VerificationFlags(true, true)

  /** The errors the static verification can report. */
  datatype StaticError = NotConnected | ServerNotConfigured | TokenNotConfigured | InviteLacksToken

  function ErrorMessage(e: StaticError, c: Constants): string {
    match e
    case NotConnected => "[General Verification] Discord Client not connected."
    case ServerNotConfigured => "Discord server not configured."
    case TokenNotConfigured => "Bot token not configured. See Github page for install instructions."
    case InviteLacksToken => "Invite message does not contain the invite link token " + c.inviteCommandToken + "."
  }

  /** The position of each error in the order VerifyConfig tests for it. */
  function ErrorRank(e: StaticError): nat {
    match e
    case NotConnected => 0
    case ServerNotConfigured => 1
    case TokenNotConfigured => 2
    case InviteLacksToken => 3
  }

  /** Each error at most once, in the order of the tests. */
  predicate InTestOrder(errors: seq<StaticError>) {
    forall i, j :: 0 <= i < j < |errors| ==> ErrorRank(errors[i]) < ErrorRank(errors[j])
  }

  predicate InviteMessageLacksToken(d: ConfigData, c: Constants) {
    !IsNullOrWhiteSpace(d.inviteMessage) && !ContainsIgnoreCase(d.inviteMessage, c.inviteCommandToken)
  }

  /** The error list VerifyConfig collects before its channel-link pass
      (it then logs it); `connected` is the Discord client's connection state.
      The server check reads the Eco server name (see Findings in README). */
  method StaticVerificationErrors(d: ConfigData, connected: bool, flags: VerificationFlags, c: Constants)
    returns (errors: seq<StaticError>)
    ensures errors == [] <==>
      connected && (flags.staticSettings ==>
        !IsNullOrWhiteSpace(d.serverName) && !IsNullOrWhiteSpace(d.botToken) && !InviteMessageLacksToken(d, c))
    ensures !connected <==> errors != [] && errors[0] == NotConnected
    ensures ServerNotConfigured in errors <==> flags.staticSettings && IsNullOrWhiteSpace(d.serverName)
    ensures TokenNotConfigured in errors <==> flags.staticSettings && IsNullOrWhiteSpace(d.botToken)
    ensures InviteLacksToken in errors <==> flags.staticSettings && InviteMessageLacksToken(d, c)
    ensures InTestOrder(errors)
    ensures |errors| <= 4
  {
    errors := [];
    if !connected {
      errors := errors + [NotConnected];
    }
    if flags.staticSettings {
      if IsNullOrWhiteSpace(d.serverName) {
        errors := errors + [ServerNotConfigured];
      }
      if IsNullOrWhiteSpace(d.botToken) {
        errors := errors + [TokenNotConfigured];
      }
      if InviteMessageLacksToken(d, c) {
        errors := errors + [InviteLacksToken];
      }
    }
  }

  /** Settings with no Discord server but with an Eco server name. */
  const UnsetServerExample := ConfigData("", "token", DefaultEcoBotName, [], "Eco World", "", DefaultDiscordCommandPrefix,
                                         [], [], [], [], [], [], [], [], [], [], [], [], [], 0, "")

  /** With the Discord server left empty, the static pass as written reports
      nothing, because it tests the Eco server name. */
  method UnsetDiscordServerGoesUnreported(c: Constants) returns (errors: seq<StaticError>)
    ensures errors == []
  {
    assert !IsWhiteSpace(UnsetServerExample.serverName[0]);
    assert !IsWhiteSpace(UnsetServerExample.botToken[0]);
    errors := StaticVerificationErrors(UnsetServerExample, true, VerifyStatic, c);
  }

  /** The static errors with the server check reading the Discord server
      setting, as its message says. */
  function CorrectedStaticErrors(d: ConfigData, connected: bool, flags: VerificationFlags, c: Constants): (r: seq<StaticError>)
    ensures r == [] <==>
      connected && (flags.staticSettings ==>
        !IsNullOrWhiteSpace(d.discordServer) && !IsNullOrWhiteSpace(d.botToken) && !InviteMessageLacksToken(d, c))
    ensures !connected <==> r != [] && r[0] == NotConnected
    ensures ServerNotConfigured in r <==> flags.staticSettings && IsNullOrWhiteSpace(d.discordServer)
    ensures TokenNotConfigured in r <==> flags.staticSettings && IsNullOrWhiteSpace(d.botToken)
    ensures InviteLacksToken in r <==> flags.staticSettings && InviteMessageLacksToken(d, c)
    ensures InTestOrder(r)
  {
    (if connected then [] else [NotConnected])
    + (if flags.staticSettings && IsNullOrWhiteSpace(d.discordServer) then [ServerNotConfigured] else [])
    + (if flags.staticSettings && IsNullOrWhiteSpace(d.botToken) then [TokenNotConfigured] else [])
    + (if flags.staticSettings && InviteMessageLacksToken(d, c) then [InviteLacksToken] else [])
  }

  /** The corrected pass reports the missing Discord server of the same
      settings. */
  lemma CorrectedCheckReportsUnsetDiscordServer(c: Constants)
    ensures CorrectedStaticErrors(UnsetServerExample, true, VerifyStatic, c) == [ServerNotConfigured]
  {
    assert !IsWhiteSpace(UnsetServerExample.botToken[0]);
  }

  /** The invite message Save leaves behind never fails the invite check
      when Save had to fill it in. */
  lemma DefaultInviteMessagePassesCheck(d: ConfigData, prev: ConfigData, c: Constants)
    requires d.inviteMessage == ""
    ensures !InviteMessageLacksToken(Corrected(d, prev, c), c)
  {
    ContainsSuffix("Join us on Discord!\n", c.inviteCommandToken);
  }

  // ---------------------------------------------------------------------
  // Channel-link part of DLConfig.VerifyConfig, as written

  /** The links the channel-link pass reports. The source compares link
      objects, not their settings, and BuildChanneLinkList adds each
      configured object once, so a link's identity is its position in the
      registry: `verified` holds the positions of the valid links, each once;
      `allVerified` is its "all verified" test; `unverified` is the list it
      would log as unverified, which keeps only VALID links that are not yet
      verified, so it is always empty (see Findings in README). */
  method VerifyChannelLinksAsWritten(registry: seq<ChannelLink>)
    returns (verified: seq<nat>, allVerified: bool, unverified: seq<ChannelLink>)
    ensures forall k: nat :: k in verified <==> k < |registry| && registry[k].valid
    ensures forall a, b :: 0 <= a < b < |verified| ==> verified[a] < verified[b]
    ensures allVerified <==> forall i :: 0 <= i < |registry| ==> registry[i].valid
    ensures unverified == []
  {
    verified := [];
    var i := 0;
    while i < |registry|
      invariant 0 <= i <= |registry|
      invariant forall k: nat :: k in verified <==> k < i && registry[k].valid
      invariant forall a :: 0 <= a < |verified| ==> verified[a] < i
      invariant forall a, b :: 0 <= a < b < |verified| ==> verified[a] < verified[b]
      invariant |verified| <= i
      invariant |verified| == i <==> forall k :: 0 <= k < i ==> registry[k].valid
    {
      if registry[i].valid && i !in verified {
        verified := verified + [i];
      }
      i := i + 1;
    }
    allVerified := |verified| >= |registry|;
    unverified := [];
    if !allVerified {
      var j := 0;
      while j < |registry|
        invariant 0 <= j <= |registry|
        invariant unverified == []
      {
        var link := registry[j];
        if link.valid {
          if j !in verified {
            unverified := unverified + [link];
          }
        }
        j := j + 1;
      }
    }
  }

  /** Two link objects with the same settings (a trade feed and a crafting
      feed on one channel, say) are two links: both are verified. */
  method SameSettingsTwiceVerify() returns (verified: seq<nat>, allVerified: bool)
    ensures 0 in verified && 1 in verified && allVerified
  {
    var feeds := ChannelLink("feeds", true, NoChannel, Plain);
    var unverified;
    verified, allVerified, unverified := VerifyChannelLinksAsWritten([feeds, feeds]);
    assert [feeds, feeds][0].valid && [feeds, feeds][1].valid;
  }

  /** A registry with one unresolved link: the pass reports that not all links
      verified, yet lists no unverified link. */
  method UnverifiedListStaysEmpty() returns (allVerified: bool, unverified: seq<ChannelLink>)
    ensures !allVerified && unverified == []
  {
    var broken := ChannelLink("trade-feed", false, NoChannel, Plain);
    var verified;
    verified, allVerified, unverified := VerifyChannelLinksAsWritten([broken]);
    assert ![broken][0].valid;
  }

  /** The evidently intended list of unverified links: the links that did not
      resolve, in registry order. */
  function UnverifiedLinks(registry: seq<ChannelLink>): (r: seq<ChannelLink>)
    ensures forall l :: l in r <==> l in registry && !l.valid
    ensures r == [] <==> forall i :: 0 <= i < |registry| ==> registry[i].valid
  {
    var unresolved := (l: ChannelLink) => !l.valid;
    FilterContents(registry, unresolved);
    var r := Filter(registry, unresolved);
    assert forall i :: 0 <= i < |registry| && !registry[i].valid ==> registry[i] in r;
    assert r != [] ==> r[0] in registry;
    r
  }

  // ---------------------------------------------------------------------
  // Reacting to edits (HandleCollectionChanged, HandleConfigChanged)

  /** NotifyCollectionChangedAction. */
  datatype CollectionAction = Add | Remove | Replace | Move | Reset

  /** Structural edits get the full change handling; the others only a save. */
  predicate TriggersChangeHandling(action: CollectionAction) {
    action == Add || action == Remove || action == Replace
  }

  /** Observable effects of the configuration object, in order. */
  datatype ConfigEffect =
    | Persisted        // PluginConfig.SaveAsync, then the OnConfigSaved event
    | Restarted        // DiscordLink.Restart
    | Verified         // VerifyConfig(All)
    | ChangeNotified   // the OnConfigChanged event

  datatype ChangeReaction = Restart | AwaitCorrectionRound | VerifyAndNotify

  /** What HandleConfigChanged does after saving: restart when the bot token
      or the Discord server differs from the snapshot; otherwise verify and
      notify only when Save made no correction (a correction triggers another
      round, which verifies). */
  function ChangeDecision(d: ConfigData, prev: ConfigData, c: Constants, linkCorrected: bool): ChangeReaction {
    if d.botToken != prev.botToken || d.discordServer != prev.discordServer then Restart
    else if linkCorrected || CorrectionNeeded(d, prev, c) then AwaitCorrectionRound
    else VerifyAndNotify
  }

  function ReactionEffects(reaction: ChangeReaction): (r: seq<ConfigEffect>) {
    match reaction
    case Restart => [Restarted]
    case AwaitCorrectionRound => []
    case VerifyAndNotify => [Verified, ChangeNotified]
  }

  /** A restart is never followed by verification, and verification happens
      only on a round that corrected nothing. */
  lemma RestartSkipsVerification(d: ConfigData, prev: ConfigData, c: Constants, linkCorrected: bool)
    ensures var e := ReactionEffects(ChangeDecision(d, prev, c, linkCorrected));
      && (Restarted in e <==> d.botToken != prev.botToken || d.discordServer != prev.discordServer)
      && (Verified in e <==> Restarted !in e && !linkCorrected && !CorrectionNeeded(d, prev, c))
      && (Verified in e <==> ChangeNotified in e)
  {
  }

  /** Corrections never loop: the round a correction triggers, with no edit
      in between and no link correction, neither restarts nor corrects, and
      so verifies and notifies. */
  lemma CorrectionRoundTerminates(d: ConfigData, prev: ConfigData, c: Constants)
    requires c.maxTopCurrencyHolderDisplayLimit >= DefaultMaxTopCurrencyHolderCount
    ensures var r := Corrected(d, prev, c);
      ChangeDecision(r, r, c, false) == VerifyAndNotify
  {
    SecondSaveMakesNoCorrection(d, prev, c);
  }

  /** DLConfig: the live settings `data`, the snapshot `prevConfig` taken by
      the last save, the flat registry `channelLinks`, and the effects so far.
      `consts` stands for DLConstants. */
  class DLConfig {
    const consts: Constants
    var data: ConfigData
    var prevConfig: ConfigData
    var channelLinks: seq<ChannelLink>
    var effects: seq<ConfigEffect>

    /** Initialize: take the first snapshot and build the registry from the
        loaded settings. */
    constructor (consts: Constants, loaded: ConfigData)
      ensures this.consts == consts && data == loaded && prevConfig == loaded
      ensures channelLinks == AllLinks(loaded) && effects == []
    {
      this.consts := consts;
      data := loaded;
      prevConfig := loaded;
      channelLinks := AllLinks(loaded);
      effects := [];
    }

    /** BuildChanneLinkList: clear the registry, then append the typed
        collections in their fixed order. */
    method BuildChannelLinkList()
      modifies this`channelLinks
      ensures channelLinks == AllLinks(data)
    {
      var d := data;
      channelLinks := [];
      channelLinks := channelLinks + d.chatChannelLinks;
      channelLinks := channelLinks + d.tradeFeedChannels;
      channelLinks := channelLinks + d.craftingFeedChannels;
      channelLinks := channelLinks + d.serverStatusFeedChannels;
      channelLinks := channelLinks + d.playerStatusFeedChannels;
      channelLinks := channelLinks + d.electionFeedChannels;
      channelLinks := channelLinks + d.serverInfoDisplayChannels;
      channelLinks := channelLinks + d.workPartyDisplayChannels;
      channelLinks := channelLinks + d.playerListDisplayChannels;
      channelLinks := channelLinks + d.electionDisplayChannels;
      channelLinks := channelLinks + d.currencyDisplayChannels;
      channelLinks := channelLinks + d.snippetInputChannels;
      channelLinks := channelLinks + d.discordCommandChannels;
      assert [] + d.chatChannelLinks == d.chatChannelLinks;
    }

    /** Save: repair bad settings, persist, and snapshot. `linkCorrected` is
        whether some registry link's MakeCorrections reported a correction
        (that code is not part of this model). Returns true when no
        correction was needed. */
    method Save(linkCorrected: bool) returns (noCorrection: bool)
      modifies this`data, this`prevConfig, this`effects
      ensures data == Corrected(old(data), old(prevConfig), consts)
      ensures noCorrection <==> !linkCorrected && !CorrectionNeeded(old(data), old(prevConfig), consts)
      ensures prevConfig == data
      ensures effects == old(effects) + [Persisted]
    {
      var correctionMade := false;
      var d := data;

      if d.ecoBotName == "" {
        d := d.(ecoBotName := DefaultEcoBotName);
        correctionMade := true;
      }

      if d.discordCommandPrefix != prevConfig.discordCommandPrefix {
        if d.discordCommandPrefix == "" {
          d := d.(discordCommandPrefix := DefaultDiscordCommandPrefix);
          correctionMade := true;
        }
      }

      if linkCorrected {
        correctionMade := true;
      }

      if d.maxTradeWatcherDisplaysPerUser < 0 {
        d := d.(maxTradeWatcherDisplaysPerUser := DefaultMaxTrackedTradesPerUser);
      }

      if d.inviteMessage == "" {
        d := d.(inviteMessage := DefaultInviteMessage(consts));
        correctionMade := true;
      }

      var currencyLinks, currencyCorrected :=
        CorrectCurrencyLinks(d.currencyDisplayChannels, consts.maxTopCurrencyHolderDisplayLimit);
      d := d.(currencyDisplayChannels := currencyLinks);
      if currencyCorrected {
        correctionMade := true;
      }

      data := d;
      effects := effects + [Persisted];
      prevConfig := data;
      noCorrection := !correctionMade;
    }

    /** HandleConfigChanged: compare token and server with the snapshot, save,
        rebuild the registry, then restart or verify-and-notify. */
    method HandleConfigChanged(linkCorrected: bool)
      modifies this`data, this`prevConfig, this`channelLinks, this`effects
      ensures data == Corrected(old(data), old(prevConfig), consts) && prevConfig == data
      ensures channelLinks == AllLinks(data)
      ensures effects == old(effects) + [Persisted]
                         + ReactionEffects(ChangeDecision(old(data), old(prevConfig), consts, linkCorrected))
    {
      var tokenChanged := data.botToken != prevConfig.botToken;
      var guildChanged := data.discordServer != prevConfig.discordServer;
      var noCorrection := Save(linkCorrected);
      var correctionMade := !noCorrection;

      BuildChannelLinkList();

      if tokenChanged || guildChanged {
        effects := effects + [Restarted];
        return;
      }

      if !correctionMade {
        effects := effects + [Verified];
        effects := effects + [ChangeNotified];
      }
    }

    /** HandleCollectionChanged: full handling for Add, Remove and Replace;
        a plain save for any other notification. */
    method HandleCollectionChanged(action: CollectionAction, linkCorrected: bool)
      modifies this`data, this`prevConfig, this`channelLinks, this`effects
      ensures data == Corrected(old(data), old(prevConfig), consts) && prevConfig == data
      ensures channelLinks == if TriggersChangeHandling(action) then AllLinks(data) else old(channelLinks)
      ensures effects == old(effects) + [Persisted]
        + (if TriggersChangeHandling(action)
           then ReactionEffects(ChangeDecision(old(data), old(prevConfig), consts, linkCorrected))
           else [])
    {
      if action == Add || action == Remove || action == Replace {
        HandleConfigChanged(linkCorrected);
      } else {
        var _ := Save(linkCorrected);
      }
    }
  }

  /** The currency-link loop of Save: repair each link in turn and report
      whether any needed it. */
  method CorrectCurrencyLinks(links: seq<CurrencyLink>, limit: int)
    returns (corrected: seq<CurrencyLink>, correctionMade: bool)
    ensures corrected == CorrectedCurrencyLinks(links, limit)
    ensures correctionMade <==> exists i :: 0 <= i < |links| && CurrencyLinkNeedsCorrection(links[i], limit)
  {
    corrected := [];
    correctionMade := false;
    var i := 0;
    while i < |links|
      invariant 0 <= i <= |links|
      invariant |corrected| == i
      invariant forall j :: 0 <= j < i ==> corrected[j] == CorrectedCurrencyLink(links[j], limit)
      invariant correctionMade <==> exists j :: 0 <= j < i && CurrencyLinkNeedsCorrection(links[j], limit)
    {
      var link := links[i];
      var k := link.kind;
      var minted, personal, top := k.maxMintedCount, k.maxPersonalCount, k.maxTopCurrencyHolderCount;
      if minted < 0 {
        minted := DefaultMaxMintedCurrencies;
        correctionMade := true;
      }
      if personal < 0 {
        personal := DefaultMaxPersonalCurrencies;
        correctionMade := true;
      }
      if top < 0 || top > limit {
        top := DefaultMaxTopCurrencyHolderCount;
        correctionMade := true;
      }
      corrected := corrected + [link.(kind := Currency(minted, personal, top))];
      i := i + 1;
    }
  }
}
