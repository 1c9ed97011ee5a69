/** The text builders of MessageBuilder: the plain-text rendering of an embed,
    the "dd:hh:mm:ss" time span, and the trade-offer listings in their
    Discord (embed) and Eco (chat markup) variants. */
module MessageBuilder {
  import opened Common

  // ---------------------------------------------------------------------
  // Embeds (DiscordLinkEmbed; a null embed is None)

  datatype EmbedField = EmbedField(title: string, text: string)

  datatype Embed = Embed(title: string, fields: seq<EmbedField>, footer: string)

  /** The block one field contributes to the text rendering. */
  function FieldBlock(f: EmbedField): string {
    "**" + f.title + "**\n" + f.text + "\n\n"
  }

  /** The field blocks one after the other. */
  function FieldBlocks(fields: seq<EmbedField>): string {
    if fields == [] then "" else FieldBlocks(fields[..|fields| - 1]) + FieldBlock(fields[|fields| - 1])
  }

  /** The untrimmed rendering: text, title, fields in order, footer. */
  function EmbedRaw(textContent: string, embed: Option<Embed>): string {
    var textPart := if textContent != "" then textContent + "\n\n" else "";
    match embed
    case None => textPart
    case Some(e) => textPart + (if e.title != "" then e.title + "\n\n" else "") + FieldBlocks(e.fields) + e.footer
  }

  /** Each field's block sits in the field text right after the blocks of
      the fields before it. */
  lemma {:induction false} FieldBlocksInOrder(fields: seq<EmbedField>, i: nat)
    requires i < |fields|
    ensures OccursAt(FieldBlocks(fields), FieldBlock(fields[i]), |FieldBlocks(fields[..i])|)
  {
    var init := fields[..|fields| - 1];
    if i < |fields| - 1 {
      FieldBlocksInOrder(init, i);
      assert init[..i] == fields[..i];
      assert init[i] == fields[i];
      var n := |FieldBlocks(fields[..i])|;
      assert FieldBlocks(fields)[n..n + |FieldBlock(fields[i])|] == FieldBlocks(init)[n..n + |FieldBlock(fields[i])|];
    } else {
      assert fields[..i] == init;
    }
  }

  /** Without an embed the rendering is the text trimmed; with no text
      either it is empty. */
  lemma EmbedToTextOfTextOnly(textContent: string)
    ensures Trim(EmbedRaw(textContent, None)) == Trim(textContent)
    ensures Trim(EmbedRaw("", None)) == ""
  {
    if textContent != "" {
      assert IsNullOrWhiteSpace("\n\n");
      TrimStartPrefix(textContent, "\n\n");
    }
  }

  /** Appending white space changes nothing once the string is trimmed at
      its end. */
  lemma {:induction false} TrimEndOfWhiteSuffix(s: string, w: string)
    requires IsNullOrWhiteSpace(w)
    ensures TrimEnd(s + w) == TrimEnd(s)
  {
    if w != [] {
      assert (s + w)[..|s + w| - 1] == s + w[..|w| - 1];
      TrimEndOfWhiteSuffix(s, w[..|w| - 1]);
    } else {
      assert s + w == s;
    }
  }

  /** Trimming the start of a text followed by white space trims the text. */
  lemma {:induction false} TrimStartPrefix(s: string, w: string)
    requires IsNullOrWhiteSpace(w)
    ensures TrimStart(s + w) == TrimStart(s) + w || (IsNullOrWhiteSpace(s) && TrimStart(s + w) == TrimStart(w))
    ensures TrimEnd(TrimStart(s + w)) == TrimEnd(TrimStart(s))
  {
    if |s| > 0 && IsWhiteSpace(s[0]) {
      assert (s + w)[1..] == s[1..] + w;
      TrimStartPrefix(s[1..], w);
    } else if |s| > 0 {
      TrimEndOfWhiteSuffix(s, w);
    } else {
      assert s + w == w;
      assert IsNullOrWhiteSpace(TrimStart(w));
      TrimEndAllWhite(TrimStart(w));
    }
  }

  lemma {:induction false} TrimEndAllWhite(s: string)
    requires IsNullOrWhiteSpace(s)
    ensures TrimEnd(s) == ""
  {
    if s != [] {
      TrimEndAllWhite(s[..|s| - 1]);
    }
  }

  /** Discord.EmbedToText: accumulate text, title, fields and footer, then
      trim. */
  method EmbedToText(textContent: string, embed: Option<Embed>) returns (r: string)
    ensures r == Trim(EmbedRaw(textContent, embed))
  {
    var message := "";
    ghost var textPart := if textContent != "" then textContent + "\n\n" else "";
    if textContent != "" {
      message := message + (textContent + "\n\n");
    }
    assert message == textPart;
    if embed.Some? {
      var e := embed.value;
      ghost var titlePart := if e.title != "" then e.title + "\n\n" else "";
      if e.title != "" {
        message := message + (e.title + "\n\n");
      }
      assert message == textPart + titlePart;
      message := AppendFields(message, e.fields);
      assert message == textPart + titlePart + FieldBlocks(e.fields);
      if e.footer != "" {
        message := message + e.footer;
      } else {
        assert message + e.footer == message;
      }
      assert message == EmbedRaw(textContent, embed);
    }
    r := Trim(message);
  }

  /** The field loop of EmbedToText. */
  method AppendFields(message: string, fields: seq<EmbedField>) returns (message': string)
    ensures message' == message + FieldBlocks(fields)
  {
    message' := message;
    for i := 0 to |fields|
      invariant message' == message + FieldBlocks(fields[..i])
    {
      var field := fields[i];
      assert fields[..i + 1][..i] == fields[..i];
      message' := message' + ("**" + field.title + "**\n" + field.text + "\n\n");
    }
    assert fields[..|fields|] == fields;
  }

  // ---------------------------------------------------------------------
  // Shared.GetTimespan over whole seconds

  /** TimespanStringComponent, a bit set. */
  const DayBit: bv32 := 1
  const HourBit: bv32 := 2
  const MinuteBit: bv32 := 4
  const SecondBit: bv32 := 8
  const AllComponents: bv32 := 15

  datatype TimespanComponent = Day | Hour | Minute | Second

  predicate HasComponent(flag: bv32, bit: bv32) {
    flag & bit != 0
  }

  /** The selected components, largest first. */
  function SelectedComponents(flag: bv32): seq<TimespanComponent> {
    IfSelected(flag, DayBit, Day) + IfSelected(flag, HourBit, Hour)
    + IfSelected(flag, MinuteBit, Minute) + IfSelected(flag, SecondBit, Second)
  }

  function IfSelected(flag: bv32, bit: bv32, c: TimespanComponent): seq<TimespanComponent> {
    if HasComponent(flag, bit) then [c] else []
  }

  /** Whole days, then hours of the day, minutes of the hour and seconds of
      the minute. */
  function ComponentValue(seconds: nat, c: TimespanComponent): nat {
    match c
    case Day => seconds / 86400
    case Hour => (seconds / 3600) % 24
    case Minute => (seconds / 60) % 60
    case Second => seconds % 60
  }

  /** The two-digit texts of the given components, in order. */
  function ComponentTexts(seconds: nat, components: seq<TimespanComponent>): (r: seq<string>)
    ensures |r| == |components|
    ensures forall i :: 0 <= i < |r| ==> r[i] == PadTwo(ComponentValue(seconds, components[i]))
  {
    if components == [] then []
    else
      ComponentTexts(seconds, components[..|components| - 1])
      + [PadTwo(ComponentValue(seconds, components[|components| - 1]))]
  }

  function TimespanParts(seconds: nat, flag: bv32): (r: seq<string>)
    ensures |r| == |SelectedComponents(flag)|
  {
    ComponentTexts(seconds, SelectedComponents(flag))
  }

  /** One component of GetTimespan: a ":" when something precedes it, then
      the component. */
  method AppendComponent(builder: string, ghost components: seq<TimespanComponent>, seconds: nat, c: TimespanComponent)
    returns (builder': string)
    requires builder == Join(":", ComponentTexts(seconds, components))
    ensures builder' == Join(":", ComponentTexts(seconds, components + [c]))
  {
    var parts := ComponentTexts(seconds, components);
    var p := PadTwo(ComponentValue(seconds, c));
    JoinAppend(":", parts, p);
    assert (components + [c])[..|components|] == components;
    if parts != [] {
      JoinAppend(":", parts[..|parts| - 1], parts[|parts| - 1]);
      assert parts[..|parts| - 1] + [parts[|parts| - 1]] == parts;
    }
    builder' := builder;
    if |builder'| != 0 {
      builder' := builder' + ":";
    }
    builder' := builder' + p;
  }

  /** One `if` block of GetTimespan: the component, when its bit is set. */
  method AppendIfSelected(builder: string, ghost components: seq<TimespanComponent>, seconds: nat,
                          flag: bv32, bit: bv32, c: TimespanComponent)
    returns (builder': string, ghost components': seq<TimespanComponent>)
    requires builder == Join(":", ComponentTexts(seconds, components))
    ensures components' == components + IfSelected(flag, bit, c)
    ensures builder' == Join(":", ComponentTexts(seconds, components'))
  {
    if flag & bit != 0 {
      builder' := AppendComponent(builder, components, seconds, c);
      components' := components + [c];
    } else {
      builder' := builder;
      components' := components;
      assert components + [] == components;
    }
  }

  /** GetTimespan: each selected component as two or more digits, joined by
      ":" in the order day, hour, minute, second. */
  method GetTimespan(seconds: nat, flag: bv32) returns (r: string)
    ensures r == Join(":", TimespanParts(seconds, flag))
  {
    var builder := "";
    ghost var components: seq<TimespanComponent> := [];
    if flag & DayBit != 0 {
      builder := builder + PadTwo(seconds / 86400);
      components := [Day];
    }
    assert builder == Join(":", ComponentTexts(seconds, components));
    assert components == IfSelected(flag, DayBit, Day);
    builder, components := AppendIfSelected(builder, components, seconds, flag, HourBit, Hour);
    builder, components := AppendIfSelected(builder, components, seconds, flag, MinuteBit, Minute);
    builder, components := AppendIfSelected(builder, components, seconds, flag, SecondBit, Second);
    assert components == SelectedComponents(flag);
    r := builder;
  }

  /** Hours, minutes and seconds stay within a day, an hour and a minute. */
  lemma TimespanComponentRanges(seconds: nat)
    ensures ComponentValue(seconds, Hour) < 24
    ensures ComponentValue(seconds, Minute) < 60
    ensures ComponentValue(seconds, Second) < 60
  {
  }

  /** The default flag selects all four components, and together they
      account for every second. */
  lemma DefaultTimespanIsExact(seconds: nat)
    ensures SelectedComponents(AllComponents) == [Day, Hour, Minute, Second]
    ensures ComponentValue(seconds, Day) * 86400 + ComponentValue(seconds, Hour) * 3600
            + ComponentValue(seconds, Minute) * 60 + ComponentValue(seconds, Second) == seconds
  {
    var m := seconds / 60;
    var h := m / 60;
    assert seconds == m * 60 + seconds % 60;
    assert m == h * 60 + m % 60;
    assert h == seconds / 3600;
    assert h == (h / 24) * 24 + h % 24;
    assert h / 24 == seconds / 86400;
  }

  /** Splitting the time span at ":" gives back one digit string per
      selected component, which reads back as that component's value. */
  lemma TimespanRoundTrip(seconds: nat, flag: bv32)
    requires SelectedComponents(flag) != []
    ensures var pieces := Split(Join(":", TimespanParts(seconds, flag)), ':');
      var sel := SelectedComponents(flag);
      && |pieces| == |sel|
      && forall i :: 0 <= i < |sel| ==> AllDigits(pieces[i]) && ParseNat(pieces[i]) == ComponentValue(seconds, sel[i])
  {
    var parts := TimespanParts(seconds, flag);
    var sel := SelectedComponents(flag);
    forall i | 0 <= i < |parts|
      ensures ':' !in parts[i]
    {
      assert AllDigits(parts[i]);
    }
    SplitJoin(parts, ':');
    forall i | 0 <= i < |sel|
      ensures ParseNat(parts[i]) == ComponentValue(seconds, sel[i])
    {
      PadTwoRoundTrip(ComponentValue(seconds, sel[i]));
    }
  }

  // ---------------------------------------------------------------------
  // Trade offers

  /** The store side of an offer (StoreComponent and its owner). */
  datatype Store = Store(ownerName: string, markedUpName: string, currencyName: string)

  /** The item side of an offer (the offered stack's item). */
  datatype Item = Item(displayName: string, markedUpName: string)

  /** An offer as the listings read it: the store, the item, the price
      already rendered as text, and the stack quantity when it has one. */
  datatype TradeOffer = TradeOffer(store: Store, item: Item, price: string, quantity: Option<int>)

  /** Offers grouped by a key; a group is never empty. */
  datatype OfferGroup = OfferGroup(key: string, offers: seq<TradeOffer>)

  /** The Discord label: the store owner when listing an item's offers, the
      item when listing a store's offers. */
  function DiscordLabel(isItem: bool, o: TradeOffer): string {
    if isItem then o.store.ownerName else o.item.displayName
  }

  function EcoLabel(isItem: bool, o: TradeOffer): string {
    if isItem then o.store.markedUpName else o.item.markedUpName
  }

  function QuantityPrefix(quantity: Option<int>): string {
    if quantity.Some? then IntToString(quantity.value) + " - " else ""
  }

  /** Discord.TradeOffersToDescriptions for one offer. */
  function DiscordTradeLine(price: string, labelText: string, quantity: Option<int>): string {
    var line := QuantityPrefix(quantity) + "$" + price + " " + labelText;
    if quantity == Some(0) then "~~" + line + "~~" else line
  }

  /** A Discord line is struck through exactly when the quantity is zero;
      otherwise it starts with the quantity (if any) and then the price. */
  lemma DiscordLineStruckIffSoldOut(price: string, labelText: string, quantity: Option<int>)
    ensures var r := DiscordTradeLine(price, labelText, quantity);
      (|r| >= 2 && r[..2] == "~~") <==> quantity == Some(0)
    ensures quantity != Some(0) ==>
      DiscordTradeLine(price, labelText, quantity)[..|QuantityPrefix(quantity)| + 1] == QuantityPrefix(quantity) + "$"
  {
    var r := DiscordTradeLine(price, labelText, quantity);
    if quantity.Some? && quantity != Some(0) {
      assert r[0] == IntToString(quantity.value)[0];
    } else if quantity.None? {
      assert r[0] == '$';
    }
  }

  /** The Eco colours the listings use. */
  datatype EcoColor = Green | Red | Yellow

  /** Eco's chat markup (Text.Bold, Text.Color, MessageUtil.StripTags); its
      tag syntax is not part of this model. */
  datatype Markup = Markup(bold: string -> string, color: (EcoColor, string) -> string, stripTags: string -> string)

  /** Eco.TradeOffersToDescriptions for one offer. */
  function EcoTradeLine(markup: Markup, price: string, labelText: string, quantity: Option<int>): string {
    var line := QuantityPrefix(quantity) + "$" + price + " at " + labelText;
    if quantity == Some(0) then markup.color(Yellow, line) else line
  }

  /** Apart from a sold-out offer, the Eco line is the Discord line with
      " at " before the label. */
  lemma EcoLineIsDiscordLineWithAt(markup: Markup, price: string, labelText: string, quantity: Option<int>)
    ensures quantity != Some(0) ==>
      EcoTradeLine(markup, price, labelText, quantity) == DiscordTradeLine(price, "at " + labelText, quantity)
    ensures quantity == Some(0) ==>
      EcoTradeLine(markup, price, labelText, quantity) == markup.color(Yellow, "0 - " + "$" + price + " at " + labelText)
  {
    if quantity == Some(0) {
      assert IntToString(0) == "0";
      assert QuantityPrefix(quantity) == "0 - ";
    }
  }

  /** Discord descriptions of a group's offers, in order. */
  function DiscordDescriptions(isItem: bool, offers: seq<TradeOffer>): (r: seq<string>)
    ensures |r| == |offers|
  {
    seq(|offers|, i requires 0 <= i < |offers| =>
      DiscordTradeLine(offers[i].price, DiscordLabel(isItem, offers[i]), offers[i].quantity))
  }

  function EcoDescriptions(markup: Markup, isItem: bool, offers: seq<TradeOffer>): (r: seq<string>)
    ensures |r| == |offers|
  {
    seq(|offers|, i requires 0 <= i < |offers| =>
      EcoTradeLine(markup, offers[i].price, EcoLabel(isItem, offers[i]), offers[i].quantity))
  }

  /** Lines, each followed by a newline (StringBuilder.Append($"{line}\n")
      and AppendLine, with the newline taken as "\n"). */
  function Lines(lines: seq<string>): string {
    if lines == [] then "" else lines[0] + "\n" + Lines(lines[1..])
  }

  lemma {:induction false} LinesAppend(lines: seq<string>, line: string)
    ensures Lines(lines + [line]) == Lines(lines) + line + "\n"
  {
    if lines != [] {
      assert (lines + [line])[1..] == lines[1..] + [line];
      LinesAppend(lines[1..], line);
    }
  }

  lemma {:induction false} LinesConcat(a: seq<string>, b: seq<string>)
    ensures Lines(a + b) == Lines(a) + Lines(b)
  {
    if a != [] {
      assert (a + b)[1..] == a[1..] + b;
      LinesConcat(a[1..], b);
    } else {
      assert a + b == b;
    }
  }

  /** Lines without newlines of their own come back out of a split at the
      newlines, followed by the empty piece after the last newline. */
  lemma {:induction false} LinesSplit(lines: seq<string>)
    requires forall i :: 0 <= i < |lines| ==> '\n' !in lines[i]
    ensures Split(Lines(lines), '\n') == lines + [""]
  {
    if lines != [] {
      LinesSplit(lines[1..]);
      SplitAfterPiece(lines[0], '\n', Lines(lines[1..]));
      assert lines[0] + "\n" + Lines(lines[1..]) == lines[0] + ['\n'] + Lines(lines[1..]);
      assert [lines[0]] + (lines[1..] + [""]) == lines + [""];
    }
  }

  /** The fields of one side of the Discord listing: one per group, titled
      with the side's heading and the group's key. */
  function GroupFields(isItem: bool, groups: seq<OfferGroup>, heading: string): (r: seq<EmbedField>)
    ensures |r| == |groups|
  {
    seq(|groups|, i requires 0 <= i < |groups| =>
      EmbedField(heading + groups[i].key + "**", Lines(DiscordDescriptions(isItem, groups[i].offers))))
  }

  /** The field list of the Discord listing: one field per buying group, then
      one per selling group. */
  function TradeFields(isItem: bool, buy: seq<OfferGroup>, sell: seq<OfferGroup>): (r: seq<EmbedField>)
    ensures |r| == |buy| + |sell|
  {
    GroupFields(isItem, buy, "**Buying for ") + GroupFields(isItem, sell, "**Selling for ")
  }

  /** The group behind the i-th field of the Discord listing. */
  function GroupAt(buy: seq<OfferGroup>, sell: seq<OfferGroup>, i: nat): OfferGroup
    requires i < |buy| + |sell|
  {
    if i < |buy| then buy[i] else sell[i - |buy|]
  }

  /** Every field body splits back into its group's descriptions when no
      description holds a newline. */
  lemma TradeFieldBodies(isItem: bool, buy: seq<OfferGroup>, sell: seq<OfferGroup>, i: nat)
    requires i < |buy| + |sell|
    requires var descriptions := DiscordDescriptions(isItem, GroupAt(buy, sell, i).offers);
      forall j :: 0 <= j < |descriptions| ==> '\n' !in descriptions[j]
    ensures Split(TradeFields(isItem, buy, sell)[i].text, '\n')
            == DiscordDescriptions(isItem, GroupAt(buy, sell, i).offers) + [""]
    ensures TradeFields(isItem, buy, sell)[i].title
            == if i < |buy| then "**Buying for " + buy[i].key + "**" else "**Selling for " + sell[i - |buy|].key + "**"
  {
    var fields := TradeFields(isItem, buy, sell);
    var g := GroupAt(buy, sell, i);
    var descriptions := DiscordDescriptions(isItem, g.offers);
    if i < |buy| {
      assert fields[i] == EmbedField("**Buying for " + g.key + "**", Lines(descriptions));
    } else {
      assert fields[i] == EmbedField("**Selling for " + g.key + "**", Lines(descriptions));
    }
    LinesSplit(descriptions);
  }

  /** The body of one field: the descriptions, one per line. */
  method FieldBody(descriptions: seq<string>) returns (body: string)
    ensures body == Lines(descriptions)
  {
    body := "";
    for j := 0 to |descriptions|
      invariant body == Lines(descriptions[..j])
    {
      LinesAppend(descriptions[..j], descriptions[j]);
      assert descriptions[..j + 1] == descriptions[..j] + [descriptions[j]];
      body := body + descriptions[j] + "\n";
    }
    assert descriptions[..|descriptions|] == descriptions;
  }

  /** Discord.TradeOffersToFields: the buying groups' fields, then the
      selling groups'. */
  method TradeOffersToFields(isItem: bool, buy: seq<OfferGroup>, sell: seq<OfferGroup>)
    returns (fields: seq<EmbedField>)
    ensures fields == TradeFields(isItem, buy, sell)
  {
    var buying := GroupsToFields(isItem, buy, "**Buying for ");
    var selling := GroupsToFields(isItem, sell, "**Selling for ");
    fields := buying + selling;
  }

  /** One of the two group loops of TradeOffersToFields. */
  method GroupsToFields(isItem: bool, groups: seq<OfferGroup>, heading: string)
    returns (fields: seq<EmbedField>)
    ensures fields == GroupFields(isItem, groups, heading)
  {
    fields := [];
    for i := 0 to |groups|
      invariant |fields| == i
      invariant forall k :: 0 <= k < i ==> fields[k] == GroupFields(isItem, groups, heading)[k]
    {
      var body := FieldBody(DiscordDescriptions(isItem, groups[i].offers));
      fields := fields + [EmbedField(heading + groups[i].key + "**", body)];
    }
  }

  /** Discord.FormatTrades: an embed titled for the match, holding the
      fields and the standard footer, or, with no groups at all, only a
      "no offers" title. `footer` stands for GetStandardEmbedFooter, which
      reads the clock and the server name. */
  method FormatTradesForDiscord(matchedName: string, isItem: bool, buy: seq<OfferGroup>, sell: seq<OfferGroup>, footer: string)
    returns (embed: Embed)
    ensures buy != [] || sell != [] ==>
      embed == Embed("Trades for " + matchedName, TradeFields(isItem, buy, sell), footer)
    ensures buy == [] && sell == [] ==>
      embed == Embed("No trade offers found for " + matchedName, [], "")
  {
    embed := Embed("Trades for " + matchedName, [], "");
    if |sell| > 0 || |buy| > 0 {
      var fields := TradeOffersToFields(isItem, buy, sell);
      for i := 0 to |fields|
        invariant embed == Embed("Trades for " + matchedName, fields[..i], "")
      {
        assert fields[..i + 1] == fields[..i] + [fields[i]];
        embed := embed.(fields := embed.fields + [fields[i]]);
      }
      assert fields[..|fields|] == fields;
      embed := embed.(footer := footer);
    } else {
      embed := embed.(title := "No trade offers found for " + matchedName);
    }
  }

  /** The Eco heading of a buying or selling group. */
  function BuyHeading(markup: Markup, g: OfferGroup): string
    requires g.offers != []
  {
    markup.bold(markup.color(Green, "<--- Buying for " + g.offers[0].store.currencyName + " --->"))
  }

  function SellHeading(markup: Markup, g: OfferGroup): string
    requires g.offers != []
  {
    markup.bold(markup.color(Red, "<--- Selling for " + markup.stripTags(g.offers[0].store.currencyName) + " --->"))
  }

  predicate NonEmptyGroups(groups: seq<OfferGroup>) {
    forall i :: 0 <= i < |groups| ==> groups[i].offers != []
  }

  /** The Eco lines of the listing: for each group its heading, its
      descriptions and an empty line; buying groups first. */
  function EcoTradeLines(markup: Markup, isItem: bool, buy: seq<OfferGroup>, sell: seq<OfferGroup>): seq<string>
    requires NonEmptyGroups(buy) && NonEmptyGroups(sell)
  {
    if buy == [] && sell == [] then ["--- No trade offers available ---"]
    else GroupLines(markup, isItem, buy, true) + GroupLines(markup, isItem, sell, false)
  }

  function GroupLines(markup: Markup, isItem: bool, groups: seq<OfferGroup>, buying: bool): seq<string>
    requires NonEmptyGroups(groups)
  {
    if groups == [] then []
    else
      var init := groups[..|groups| - 1];
      var g := groups[|groups| - 1];
      GroupLines(markup, isItem, init, buying) + GroupBlock(markup, isItem, g, buying)
  }

  /** One group of the listing: its heading, its descriptions, an empty line. */
  function GroupBlock(markup: Markup, isItem: bool, g: OfferGroup, buying: bool): seq<string>
    requires g.offers != []
  {
    [if buying then BuyHeading(markup, g) else SellHeading(markup, g)] + EcoDescriptions(markup, isItem, g.offers) + [""]
  }

  /** Each group takes its descriptions plus two lines, so the listing's
      length is fixed by the groups' sizes. */
  lemma {:induction false} GroupLinesLength(markup: Markup, isItem: bool, groups: seq<OfferGroup>, buying: bool)
    requires NonEmptyGroups(groups)
    ensures |GroupLines(markup, isItem, groups, buying)| == 2 * |groups| + OfferCount(groups)
  {
    if groups != [] {
      GroupLinesLength(markup, isItem, groups[..|groups| - 1], buying);
    }
  }

  function OfferCount(groups: seq<OfferGroup>): nat {
    if groups == [] then 0 else OfferCount(groups[..|groups| - 1]) + |groups[|groups| - 1].offers|
  }

  /** An Eco listing without groups is the single "no offers" line; any
      other listing starts with the first buying heading, or the first
      selling heading when nothing is bought, and ends with an empty line. */
  lemma EcoListingShape(markup: Markup, isItem: bool, buy: seq<OfferGroup>, sell: seq<OfferGroup>)
    requires NonEmptyGroups(buy) && NonEmptyGroups(sell)
    ensures buy == [] && sell == [] ==> Lines(EcoTradeLines(markup, isItem, buy, sell)) == "--- No trade offers available ---\n"
    ensures buy != [] ==> EcoTradeLines(markup, isItem, buy, sell)[0] == BuyHeading(markup, buy[0])
    ensures buy == [] && sell != [] ==> EcoTradeLines(markup, isItem, buy, sell)[0] == SellHeading(markup, sell[0])
    ensures buy != [] || sell != [] ==>
      var l := EcoTradeLines(markup, isItem, buy, sell); |l| >= 2 && l[|l| - 1] == ""
  {
    GroupLinesLength(markup, isItem, buy, true);
    GroupLinesLength(markup, isItem, sell, false);
    if buy != [] {
      GroupLinesFirst(markup, isItem, buy, true);
    } else if sell != [] {
      GroupLinesFirst(markup, isItem, sell, false);
      assert GroupLines(markup, isItem, buy, true) == [];
    }
    if sell != [] {
      assert GroupLines(markup, isItem, sell, false)[|GroupLines(markup, isItem, sell, false)| - 1] == "";
    } else if buy != [] {
      assert GroupLines(markup, isItem, buy, true)[|GroupLines(markup, isItem, buy, true)| - 1] == "";
      assert GroupLines(markup, isItem, sell, false) == [];
    }
  }

  lemma {:induction false} GroupLinesFirst(markup: Markup, isItem: bool, groups: seq<OfferGroup>, buying: bool)
    requires NonEmptyGroups(groups) && groups != []
    ensures |GroupLines(markup, isItem, groups, buying)| >= 2
    ensures GroupLines(markup, isItem, groups, buying)[0]
            == if buying then BuyHeading(markup, groups[0]) else SellHeading(markup, groups[0])
  {
    var init := groups[..|groups| - 1];
    if init != [] {
      GroupLinesFirst(markup, isItem, init, buying);
      assert init[0] == groups[0];
    }
  }

  /** Eco.FormatTrades: the listing's lines, each ended by a newline. */
  method FormatTradesForEco(markup: Markup, isItem: bool, buy: seq<OfferGroup>, sell: seq<OfferGroup>)
    returns (message: string)
    requires NonEmptyGroups(buy) && NonEmptyGroups(sell)
    ensures message == Lines(EcoTradeLines(markup, isItem, buy, sell))
  {
    message := "";
    if |sell| > 0 || |buy| > 0 {
      message := AppendGroups(markup, isItem, buy, true, message);
      message := AppendGroups(markup, isItem, sell, false, message);
      LinesConcat(GroupLines(markup, isItem, buy, true), GroupLines(markup, isItem, sell, false));
    } else {
      LinesAppend([], "--- No trade offers available ---");
      message := message + "--- No trade offers available ---" + "\n";
    }
  }

  /** One of the two group loops of Eco.FormatTrades. */
  method AppendGroups(markup: Markup, isItem: bool, groups: seq<OfferGroup>, buying: bool, message: string)
    returns (message': string)
    requires NonEmptyGroups(groups)
    ensures message' == message + Lines(GroupLines(markup, isItem, groups, buying))
  {
    message' := message;
    assert groups[..0] == [];
    for i := 0 to |groups|
      invariant message' == message + Lines(GroupLines(markup, isItem, groups[..i], buying))
    {
      GroupLinesStep(markup, isItem, groups, buying, i);
      ghost var before := Lines(GroupLines(markup, isItem, groups[..i], buying));
      message' := AppendGroup(markup, isItem, groups[i], buying, message');
      AppendAssoc(message, before, Lines(GroupBlock(markup, isItem, groups[i], buying)));
    }
    assert groups[..|groups|] == groups;
  }

  lemma GroupLinesStep(markup: Markup, isItem: bool, groups: seq<OfferGroup>, buying: bool, i: nat)
    requires NonEmptyGroups(groups) && i < |groups|
    ensures Lines(GroupLines(markup, isItem, groups[..i + 1], buying))
            == Lines(GroupLines(markup, isItem, groups[..i], buying)) + Lines(GroupBlock(markup, isItem, groups[i], buying))
  {
    assert groups[..i + 1][..i] == groups[..i];
    LinesConcat(GroupLines(markup, isItem, groups[..i], buying), GroupBlock(markup, isItem, groups[i], buying));
  }

  /** One group of the Eco listing: the heading, each description, then an
      empty line. */
  method AppendGroup(markup: Markup, isItem: bool, g: OfferGroup, buying: bool, message: string)
    returns (message': string)
    requires g.offers != []
    ensures message' == message + Lines(GroupBlock(markup, isItem, g, buying))
  {
    var heading := if buying then BuyHeading(markup, g) else SellHeading(markup, g);
    var descriptions := EcoDescriptions(markup, isItem, g.offers);
    BlockLines(heading, descriptions);
    message' := message + heading + "\n";
    message' := AppendLines(message', descriptions);
    message' := message' + "\n";
    AppendAssoc(message, heading + "\n", Lines(descriptions));
    AppendAssoc(message, heading + "\n" + Lines(descriptions), "\n");
  }

  /** The lines of a heading, some descriptions and an empty line. */
  lemma BlockLines(heading: string, descriptions: seq<string>)
    ensures Lines([heading] + descriptions + [""]) == heading + "\n" + Lines(descriptions) + "\n"
  {
    LinesAppend([heading] + descriptions, "");
    LinesConcat([heading], descriptions);
    assert Lines([heading]) == heading + "\n";
  }

  /** StringBuilder.AppendLine for each of `more`, in order. */
  method AppendLines(message: string, more: seq<string>) returns (message': string)
    ensures message' == message + Lines(more)
  {
    message' := message;
    assert more[..0] == [];
    for j := 0 to |more|
      invariant message' == message + Lines(more[..j])
    {
      LinesAppend(more[..j], more[j]);
      assert more[..j + 1] == more[..j] + [more[j]];
      message' := message' + more[j] + "\n";
    }
    assert more[..|more|] == more;
  }
}
