/** The gate in front of every Discord command: the permission the command
    needs, the channels commands may be posted in, the denial replies, and
    how a reply is cut into messages (one combined reply, or the text parts
    followed by the embed parts, with a text fallback when embeds may not be
    posted). */
module Commands {
  import opened Common
  import opened Links
  import opened MessageBuilder

  datatype PermissionType = User | Admin

  /** The enum member's name, as string interpolation renders it. */
  function PermissionName(p: PermissionType): string {
    match p
    case User => "User"
    case Admin => "Admin"
  }

  /** IsCommandAllowedForUser: everyone may run a User command, only admins
      an Admin command. */
  function IsCommandAllowedForUser(requiredPermission: PermissionType, memberIsAdmin: bool): (r: bool)
    ensures requiredPermission == User ==> r
    ensures requiredPermission == Admin ==> (r <==> memberIsAdmin)
  {
    match requiredPermission
    case User => true
    case Admin => memberIsAdmin
  }

  // ---------------------------------------------------------------------
  // The channel gate

  /** `commandChannels.Any(link => link.IsValid())` */
  predicate HasValidLink(commandChannels: seq<ChannelLink>) {
    exists i :: 0 <= i < |commandChannels| && commandChannels[i].valid
  }

  /** Some configured command-channel link, valid or not, names the channel. */
  predicate SomeLinkNames(commandChannels: seq<ChannelLink>, ch: DiscordChannel) {
    exists i :: 0 <= i < |commandChannels| && IsChannel(commandChannels[i], ch)
  }

  /** Where a command may be posted: in a direct message, by an admin
      anywhere, anywhere while no command channel resolves, and otherwise in
      a channel one of the command-channel links names. */
  predicate ChannelAllows(commandChannels: seq<ChannelLink>, ch: DiscordChannel, memberIsAdmin: bool) {
    ch.isPrivate || memberIsAdmin || !HasValidLink(commandChannels) || SomeLinkNames(commandChannels, ch)
  }

  /** IsCommandAllowedInChannel: the three overrides first, then a search of
      every link that stops at the first one naming the channel. */
  method IsCommandAllowedInChannel(commandChannels: seq<ChannelLink>, ch: DiscordChannel, memberIsAdmin: bool)
    returns (allowed: bool)
    ensures allowed <==> ChannelAllows(commandChannels, ch, memberIsAdmin)
  {
    allowed := ch.isPrivate || memberIsAdmin || !HasValidLink(commandChannels);
    if !allowed {
      var i := 0;
      while i < |commandChannels|
        invariant 0 <= i <= |commandChannels|
        invariant !allowed ==> forall j :: 0 <= j < i ==> !IsChannel(commandChannels[j], ch)
        invariant allowed ==> SomeLinkNames(commandChannels, ch)
        decreases |commandChannels| - i, if allowed then 0 else 1
      {
        if IsChannel(commandChannels[i], ch) {
          allowed := true;
          break;
        }
        i := i + 1;
      }
    }
  }

  /** The search looks at invalid links too: a link that does not resolve
      still opens the channel it names, as long as another link resolves. */
  lemma InvalidLinkStillOpensItsChannel()
    ensures var ch := DiscordChannel(7, "bots", Guild(1, "home"), false);
            var open := ChannelLink("bots", false, NoChannel, Plain);
            var other := ChannelLink("commands", true, DiscordChannel(8, "commands", Guild(1, "home"), false), Plain);
            HasValidLink([other, open]) && !IsChannel(other, ch) && ChannelAllows([other, open], ch, false)
  {
    var ch := DiscordChannel(7, "bots", Guild(1, "home"), false);
    var open := ChannelLink("bots", false, NoChannel, Plain);
    var other := ChannelLink("commands", true, DiscordChannel(8, "commands", Guild(1, "home"), false), Plain);
    assert [other, open][0].valid;
    assert IsChannel(open, ch);
    assert [other, open][1] == open;
    assert ToLower(other.discordChannel)[0] == 'c' != ToLower(ch.name)[0];
    assert |ToLower(other.discordChannel)| == 8 != |ToLower(NatToString(ch.id))|;
  }

  // ---------------------------------------------------------------------
  // Denial and error replies

  const NoAdminRoles := "No admin roles configured"

  /** The admin roles one per line, or a note that there are none. */
  function RolesDescription(adminRoles: seq<string>): string {
    if |adminRoles| > 0 then Join("\n- ", adminRoles) else NoAdminRoles
  }

  function PermissionDenialHead(requiredPermission: PermissionType): string {
    "You lack the `" + PermissionName(requiredPermission)
    + "` level permission required to execute this command.\nThe permitted roles are:\n```- "
  }

  function PermissionDenial(requiredPermission: PermissionType, adminRoles: seq<string>): string {
    PermissionDenialHead(requiredPermission) + RolesDescription(adminRoles) + "```"
  }

  /** The names of the command channels that resolve, in configuration order. */
  function ValidChannelNames(commandChannels: seq<ChannelLink>): seq<string> {
    if commandChannels == [] then []
    else
      var last := commandChannels[|commandChannels| - 1];
      ValidChannelNames(commandChannels[..|commandChannels| - 1]) + (if last.valid then [last.channel.name] else [])
  }

  const ChannelDenialHead :=
    "You aren't allowed to post commands in this channel.\nCommands are allowed in the following channels:\n```- "

  function ChannelDenial(commandChannels: seq<ChannelLink>): string {
    ChannelDenialHead + Join("\n- ", ValidChannelNames(commandChannels)) + "```"
  }

  function ErrorReply(error: string): string {
    "An error occurred while attempting to run that command. Error message: " + error
  }

  /** A piece found in a string is found at the shifted offset once text is
      added on either side. */
  lemma OccursInContext(a: string, s: string, b: string, t: string, k: int)
    requires OccursAt(s, t, k)
    ensures OccursAt(a + s + b, t, |a| + k)
  {
    assert (a + s + b)[|a| + k..|a| + k + |t|] == s[k..k + |t|];
  }

  /** Every part of a join is found in any text the join is embedded in. */
  lemma JoinInContext(head: string, sep: string, parts: seq<string>, tail: string, i: nat) returns (k: int)
    requires i < |parts|
    ensures OccursAt(head + Join(sep, parts) + tail, parts[i], k)
  {
    JoinContainsParts(sep, parts, i);
    var k0 :| 0 <= k0 <= |Join(sep, parts)| - |parts[i]| && OccursAt(Join(sep, parts), parts[i], k0);
    OccursInContext(head, Join(sep, parts), tail, parts[i], k0);
    k := |head| + k0;
  }

  /** The permission denial names the permission the command needs. */
  lemma PermissionDenialNamesPermission(requiredPermission: PermissionType, adminRoles: seq<string>)
    ensures OccursAt(PermissionDenial(requiredPermission, adminRoles), PermissionName(requiredPermission), 14)
  {
    var name := PermissionName(requiredPermission);
    var head := PermissionDenialHead(requiredPermission);
    OccursInContext("You lack the `", name, "` level permission required to execute this command.\nThe permitted roles are:\n```- ", name, 0);
    OccursInContext([], head, RolesDescription(adminRoles) + "```", name, 14);
    AppendAssoc(head, RolesDescription(adminRoles), "```");
  }

  /** The permission denial lists every admin role; with no admin roles it
      says so instead. */
  lemma PermissionDenialListsRoles(requiredPermission: PermissionType, adminRoles: seq<string>)
    ensures forall i :: 0 <= i < |adminRoles| ==>
              Contains(PermissionDenial(requiredPermission, adminRoles), adminRoles[i])
    ensures adminRoles == [] ==>
              OccursAt(PermissionDenial(requiredPermission, adminRoles), NoAdminRoles, |PermissionDenialHead(requiredPermission)|)
  {
    var head := PermissionDenialHead(requiredPermission);
    forall i | 0 <= i < |adminRoles|
      ensures Contains(PermissionDenial(requiredPermission, adminRoles), adminRoles[i])
    {
      assert RolesDescription(adminRoles) == Join("\n- ", adminRoles);
      var k := JoinInContext(head, "\n- ", adminRoles, "```", i);
      assert OccursAt(PermissionDenial(requiredPermission, adminRoles), adminRoles[i], k);
    }
    if adminRoles == [] {
      OccursInContext(head, NoAdminRoles, "```", NoAdminRoles, 0);
    }
  }

  /** The channel names listed are exactly those of the valid links. */
  lemma {:induction false} ValidChannelNamesContents(commandChannels: seq<ChannelLink>)
    ensures forall i :: 0 <= i < |commandChannels| && commandChannels[i].valid ==>
              commandChannels[i].channel.name in ValidChannelNames(commandChannels)
    ensures forall n :: n in ValidChannelNames(commandChannels) ==>
              exists i :: 0 <= i < |commandChannels| && commandChannels[i].valid && commandChannels[i].channel.name == n
  {
    if commandChannels != [] {
      var init := commandChannels[..|commandChannels| - 1];
      ValidChannelNamesContents(init);
      assert forall i :: 0 <= i < |init| ==> init[i] == commandChannels[i];
    }
  }

  /** The channel denial lists the name of every valid command channel. */
  lemma ChannelDenialListsValidChannels(commandChannels: seq<ChannelLink>, i: nat)
    requires i < |commandChannels| && commandChannels[i].valid
    ensures Contains(ChannelDenial(commandChannels), commandChannels[i].channel.name)
  {
    ValidChannelNamesContents(commandChannels);
    var names := ValidChannelNames(commandChannels);
    var j :| 0 <= j < |names| && names[j] == commandChannels[i].channel.name;
    var k := JoinInContext(ChannelDenialHead, "\n- ", names, "```", j);
    assert OccursAt(ChannelDenial(commandChannels), commandChannels[i].channel.name, k);
  }

  // ---------------------------------------------------------------------
  // ExecuteCommand

  /** Whether the command body runs: both gates pass. */
  predicate Runs(requiredPermission: PermissionType, memberIsAdmin: bool,
                 commandChannels: seq<ChannelLink>, ch: DiscordChannel) {
    IsCommandAllowedForUser(requiredPermission, memberIsAdmin) && ChannelAllows(commandChannels, ch, memberIsAdmin)
  }

  /** ExecuteCommand. The command body is outside the model: `bodyError` is
      the message of the exception it throws, if it throws. The result says
      whether the body ran and which texts were given to RespondToCommand,
      in order. */
  method ExecuteCommand(requiredPermission: PermissionType, memberIsAdmin: bool, adminRoles: seq<string>,
                        commandChannels: seq<ChannelLink>, ch: DiscordChannel, bodyError: Option<string>)
    returns (ranBody: bool, responses: seq<string>)
    ensures ranBody <==> Runs(requiredPermission, memberIsAdmin, commandChannels, ch)
    ensures !IsCommandAllowedForUser(requiredPermission, memberIsAdmin) ==>
              responses == [PermissionDenial(requiredPermission, adminRoles)]
    ensures IsCommandAllowedForUser(requiredPermission, memberIsAdmin) && !ChannelAllows(commandChannels, ch, memberIsAdmin) ==>
              responses == [ChannelDenial(commandChannels)]
    ensures ranBody ==> responses == if bodyError.Some? then [ErrorReply(bodyError.value)] else []
  {
    if !IsCommandAllowedForUser(requiredPermission, memberIsAdmin) {
      return false, [PermissionDenial(requiredPermission, adminRoles)];
    }
    var allowed := IsCommandAllowedInChannel(commandChannels, ch, memberIsAdmin);
    if !allowed {
      return false, [ChannelDenial(commandChannels)];
    }
    ranBody := true;
    responses := if bodyError.Some? then [ErrorReply(bodyError.value)] else [];
  }

  /** Admins pass both gates, and so does anyone running a User command in a
      direct message. */
  lemma AdminsAndDirectMessagesRun(requiredPermission: PermissionType, memberIsAdmin: bool,
                                   commandChannels: seq<ChannelLink>, ch: DiscordChannel)
    ensures memberIsAdmin ==> Runs(requiredPermission, memberIsAdmin, commandChannels, ch)
    ensures requiredPermission == User && ch.isPrivate ==> Runs(requiredPermission, memberIsAdmin, commandChannels, ch)
    ensures !memberIsAdmin && requiredPermission == Admin ==> !Runs(requiredPermission, memberIsAdmin, commandChannels, ch)
  {
  }

  /** When the channel gate denies, at least one command channel resolves, so
      the denial has a channel to list. */
  lemma ChannelDenialIsNeverEmpty(commandChannels: seq<ChannelLink>, ch: DiscordChannel, memberIsAdmin: bool)
    requires !ChannelAllows(commandChannels, ch, memberIsAdmin)
    ensures ValidChannelNames(commandChannels) != []
  {
    var i :| 0 <= i < |commandChannels| && commandChannels[i].valid;
    ValidChannelNamesContents(commandChannels);
    assert commandChannels[i].channel.name in ValidChannelNames(commandChannels);
  }

  // ---------------------------------------------------------------------
  // RespondToCommand and Respond

  /** One ctx.RespondAsync call: a text, an embed, or both. */
  datatype Reply<E> = Reply(text: Option<string>, embed: Option<E>)

  /** What Respond sends for a text cut into `stringParts` and an embed cut
      into `embedParts`. */
  function Replies<E>(textContent: string, stringParts: seq<string>, embedParts: seq<E>): seq<Reply<E>> {
    if |stringParts| <= 1 && |embedParts| <= 1 then
      [Reply(Some(textContent), if |embedParts| >= 1 then Some(embedParts[0]) else None)]
    else
      TextReplies(stringParts) + EmbedReplies(embedParts)
  }

  function TextReplies<E>(stringParts: seq<string>): (r: seq<Reply<E>>) {
    if stringParts == [] then []
    else TextReplies(stringParts[..|stringParts| - 1]) + [Reply(Some(stringParts[|stringParts| - 1]), None)]
  }

  function EmbedReplies<E>(embedParts: seq<E>): (r: seq<Reply<E>>) {
    if embedParts == [] then []
    else EmbedReplies(embedParts[..|embedParts| - 1]) + [Reply(None, Some(embedParts[|embedParts| - 1]))]
  }

  lemma {:induction false} TextRepliesContents<E>(stringParts: seq<string>)
    ensures |TextReplies<E>(stringParts)| == |stringParts|
    ensures forall i :: 0 <= i < |stringParts| ==> TextReplies<E>(stringParts)[i] == Reply(Some(stringParts[i]), None)
  {
    if stringParts != [] {
      TextRepliesContents<E>(stringParts[..|stringParts| - 1]);
    }
  }

  lemma {:induction false} EmbedRepliesContents<E>(embedParts: seq<E>)
    ensures |EmbedReplies(embedParts)| == |embedParts|
    ensures forall i :: 0 <= i < |embedParts| ==> EmbedReplies(embedParts)[i] == Reply(None, Some(embedParts[i]))
  {
    if embedParts != [] {
      EmbedRepliesContents(embedParts[..|embedParts| - 1]);
    }
  }

  /** With at most one part of each, one reply carries the whole text and the
      embed part if there is one. */
  lemma CombinedReply<E>(textContent: string, stringParts: seq<string>, embedParts: seq<E>)
    requires |stringParts| <= 1 && |embedParts| <= 1
    ensures var r := Replies(textContent, stringParts, embedParts);
      |r| == 1 && r[0].text == Some(textContent) && (r[0].embed.Some? <==> |embedParts| == 1)
      && (|embedParts| == 1 ==> r[0].embed == Some(embedParts[0]))
  {
  }

  /** Otherwise every text part goes out alone, in order, and then every
      embed part alone, in order. */
  lemma PartReplies<E>(textContent: string, stringParts: seq<string>, embedParts: seq<E>)
    requires |stringParts| > 1 || |embedParts| > 1
    ensures var r := Replies(textContent, stringParts, embedParts);
      && |r| == |stringParts| + |embedParts|
      && (forall i :: 0 <= i < |stringParts| ==> r[i] == Reply(Some(stringParts[i]), None))
      && (forall j :: 0 <= j < |embedParts| ==> r[|stringParts| + j] == Reply(None, Some(embedParts[j])))
  {
    TextRepliesContents<E>(stringParts);
    EmbedRepliesContents(embedParts);
    var texts := TextReplies<E>(stringParts);
    var embeds := EmbedReplies(embedParts);
    assert Replies(textContent, stringParts, embedParts) == texts + embeds;
    assert forall j :: 0 <= j < |embedParts| ==> (texts + embeds)[|stringParts| + j] == embeds[j];
  }

  /** Respond: the decision between one combined reply and the parts. */
  method Respond<E>(textContent: string, stringParts: seq<string>, embedParts: seq<E>) returns (replies: seq<Reply<E>>)
    ensures replies == Replies(textContent, stringParts, embedParts)
  {
    if |stringParts| <= 1 && |embedParts| <= 1 {
      var embed := if |embedParts| >= 1 then Some(embedParts[0]) else None;
      replies := [Reply(Some(textContent), embed)];
    } else {
      replies := [];
      for i := 0 to |stringParts|
        invariant replies == TextReplies(stringParts[..i])
      {
        assert stringParts[..i + 1][..i] == stringParts[..i];
        replies := replies + [Reply(Some(stringParts[i]), None)];
      }
      assert stringParts[..|stringParts|] == stringParts;
      ghost var texts := replies;
      for j := 0 to |embedParts|
        invariant replies == texts + EmbedReplies(embedParts[..j])
      {
        assert embedParts[..j + 1][..j] == embedParts[..j];
        replies := replies + [Reply(None, Some(embedParts[j]))];
      }
      assert embedParts[..|embedParts|] == embedParts;
    }
  }

  /** RespondToCommand. Cutting the text into messages of the size Discord
      accepts (`split`) and the embed into Discord embeds (`build`) are
      outside the model; no embed builds into no parts. Without permission to
      post embeds in the channel the embed is rendered as text under the
      message instead. */
  method RespondToCommand<E>(fullTextContent: string, embedContent: Option<Embed>, channelHasEmbedLinks: bool,
                             split: string -> seq<string>, build: Embed -> seq<E>)
    returns (replies: seq<Reply<E>>)
    ensures embedContent.None? ==> replies == Replies(fullTextContent, split(fullTextContent), [])
    ensures embedContent.Some? && channelHasEmbedLinks ==>
              replies == Replies(fullTextContent, split(fullTextContent), build(embedContent.value))
    ensures embedContent.Some? && !channelHasEmbedLinks ==>
              var text := fullTextContent + "\n" + Trim(EmbedRaw("", embedContent));
              replies == Replies(text, split(text), [])
  {
    if embedContent.None? {
      replies := Respond(fullTextContent, split(fullTextContent), []);
    } else if channelHasEmbedLinks {
      replies := Respond(fullTextContent, split(fullTextContent), build(embedContent.value));
    } else {
      var asText := EmbedToText("", embedContent);
      var text := fullTextContent + "\n" + asText;
      replies := Respond(text, split(text), []);
    }
  }

  /** The text fallback attaches no embed to any reply, and the text it sends
      in a single reply is the message followed by the embed as text. */
  lemma FallbackSendsNoEmbed<E>(fullTextContent: string, e: Embed, split: string -> seq<string>)
    ensures var text := fullTextContent + "\n" + Trim(EmbedRaw("", Some(e)));
      var r := Replies<E>(text, split(text), []);
      && (forall i :: 0 <= i < |r| ==> r[i].embed.None?)
      && (|split(text)| <= 1 ==> r == [Reply(Some(text), None)])
  {
    var text := fullTextContent + "\n" + Trim(EmbedRaw("", Some(e)));
    if |split(text)| <= 1 {
      CombinedReply<E>(text, split(text), []);
    } else {
      PartReplies<E>(text, split(text), []);
    }
  }
}
