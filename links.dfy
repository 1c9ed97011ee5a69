/** The channel links of the plugin's configuration: each pairs a Discord
    channel (configured by name or id, resolved against the live guild) with
    a purpose. The class hierarchy of the source (ChannelLink,
    ChatChannelLink, CurrencyChannelLink, ...) becomes one datatype whose
    `kind` tags the variant; subset types give the typed collections. */
module Links {
  import opened Common

  datatype Guild = Guild(id: nat, name: string)

  /** A Discord channel as the client resolves it. */
  datatype DiscordChannel = DiscordChannel(id: nat, name: string, guild: Guild, isPrivate: bool)

  datatype ChatSyncDirection = DiscordToEco | EcoToDiscord | Duplex

  /** Whether @here and @everyone may pass through a chat link. */
  datatype GlobalMentionPermission = AnyUser | NoUser

  /** Per-kind mention allowances of a chat link; passed through unchanged to
      the Discord message formatter, which is not part of this model. */
  datatype ChatLinkMentionPermissions =
    ChatLinkMentionPermissions(allowRoleMentions: bool, allowMemberMentions: bool, allowChannelMentions: bool)

  datatype LinkKind =
    | Plain
    | Chat(ecoChannel: string, direction: ChatSyncDirection, useTimestamp: bool,
           hereAndEveryoneMentionPermission: GlobalMentionPermission,
           mentionPermissions: ChatLinkMentionPermissions)
    | Currency(maxMintedCount: int, maxPersonalCount: int, maxTopCurrencyHolderCount: int)

  /** `discordChannel` is the configured name or id; `valid` is the outcome of
      ChannelLink.IsValid (resolution against live Discord state, outside
      this model); `channel` is the resolved channel, whose guild is the
      link's Guild. */
  datatype ChannelLink = ChannelLink(discordChannel: string, valid: bool, channel: DiscordChannel, kind: LinkKind)
  {
    function Guild(): Guild {
      channel.guild
    }
  }

  const NoChannel := DiscordChannel(0, "", Guild(0, ""), false)

  type ChatLink = l: ChannelLink | l.kind.Chat?
    witness ChannelLink("", false, NoChannel,
                        Chat("", Duplex, false, NoUser, ChatLinkMentionPermissions(false, false, false)))

  type CurrencyLink = l: ChannelLink | l.kind.Currency?
    witness ChannelLink("", false, NoChannel, Currency(0, 0, 0))

  /** ChannelLink.IsChannel: the configured channel names the given channel,
      by name or by id, ignoring case. */
  predicate IsChannel(link: ChannelLink, ch: DiscordChannel) {
    EqualsIgnoreCase(link.discordChannel, ch.name) || EqualsIgnoreCase(link.discordChannel, NatToString(ch.id))
  }

  // ---------------------------------------------------------------------
  // Sequence searches used by the lookups (LINQ FirstOrDefault and Where)

  function FirstWhere<T>(s: seq<T>, p: T -> bool): (r: Option<T>)
    ensures r.None? <==> forall i :: 0 <= i < |s| ==> !p(s[i])
    ensures r.Some? ==> exists i :: 0 <= i < |s| && s[i] == r.value && p(s[i])
                                    && forall j :: 0 <= j < i ==> !p(s[j])
  {
    if |s| == 0 then None
    else if p(s[0]) then Some(s[0])
    else
      var r := FirstWhere(s[1..], p);
      assert forall i :: 1 <= i < |s| ==> s[i] == s[1..][i - 1];
      r
  }

  function Filter<T>(s: seq<T>, p: T -> bool): (r: seq<T>)
    ensures |r| <= |s|
  {
    if |s| == 0 then []
    else if p(s[0]) then [s[0]] + Filter(s[1..], p)
    else Filter(s[1..], p)
  }

  /** Filter keeps exactly the elements that pass the test. */
  lemma {:induction false} FilterContents<T>(s: seq<T>, p: T -> bool)
    ensures forall i :: 0 <= i < |Filter(s, p)| ==> Filter(s, p)[i] in s && p(Filter(s, p)[i])
    ensures forall i :: 0 <= i < |s| && p(s[i]) ==> s[i] in Filter(s, p)
  {
    if |s| > 0 {
      FilterContents(s[1..], p);
      assert forall i :: 1 <= i < |s| ==> s[i] == s[1..][i - 1];
    }
  }

  /** FirstOrDefault is the first element of the Where with the same test. */
  lemma {:induction false} FirstWhereIsHeadOfFilter<T>(s: seq<T>, p: T -> bool)
    ensures FirstWhere(s, p) == if Filter(s, p) == [] then None else Some(Filter(s, p)[0])
  {
    if |s| > 0 && !p(s[0]) {
      FirstWhereIsHeadOfFilter(s[1..], p);
    }
  }

  lemma {:induction false} FilterAppend<T>(s: seq<T>, x: T, p: T -> bool)
    ensures Filter(s + [x], p) == Filter(s, p) + (if p(x) then [x] else [])
  {
    if |s| > 0 {
      assert (s + [x])[1..] == s[1..] + [x];
      FilterAppend(s[1..], x, p);
    }
  }

  /** Every element passes exactly one of a test and its negation. */
  lemma {:induction false} FilterSplitsLength<T>(s: seq<T>, p: T -> bool)
    ensures |Filter(s, p)| + |Filter(s, x => !p(x))| == |s|
  {
    if |s| > 0 {
      FilterSplitsLength(s[1..], p);
    }
  }
}
