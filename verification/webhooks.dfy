/**
 * Webhook notifications: URL validation, the sender chosen per webhook type,
 * the payload each sender builds from (message, title, colour), and the
 * fan-out of an expiry notification to a user's active webhooks.
 *
 * The HTTP post is an input (whether the endpoint accepted the request), and
 * the wall clock is a `Clock` reading passed in.
 */
module Webhooks {
  import opened Options
  import opened Calendar
  import opened Text
  import opened Subscriptions

  /** The JSON values a payload is made of. */
  datatype Json =
    | JString(str: string)
    | JInt(num: int)
    | JArray(items: seq<Json>)
    | JObject(fields: map<string, Json>)

  /** One reading of the UTC wall clock: its ISO-8601 spelling and its whole seconds since the epoch. */
  datatype Clock = Clock(isoformat: string, epochSeconds: int)

  /** Python's truthiness of an optional string: present and not empty. */
  predicate Truthy(s: Option<string>) {
    s.Some? && s.value != ""
  }

  const Footer := "Subscription Tracker"

  // ----- URL validation -----------------------------------------------------

  /** The verdict of `validate_webhook_url`: a flag and a message for the user. */
  datatype Validation = Validation(valid: bool, message: string)

  const EmptyUrlMessage := "URL cannot be empty"
  const SchemeMessage := "URL must start with http:// or https://"
  const DiscordUrlMessage := "Discord webhook URL must contain discord.com and /webhooks/"
  const SlackUrlMessage := "Slack webhook URL must contain hooks.slack.com"
  const TeamsUrlMessage := "Teams webhook URL must be an Office 365 connector URL"
  const ValidUrlMessage := "URL format appears valid"

  /** The URL starts with an HTTP or HTTPS scheme. */
  predicate HasWebScheme(u: string) {
    StartsWith(u, "http://") || StartsWith(u, "https://")
  }

  /**
   * Checks a webhook URL in order: present and not blank, then (after
   * stripping surrounding whitespace) an HTTP(S) scheme, then the host
   * required by the webhook type. The message names the first check failed.
   */
  function ValidateWebhookUrl(webhookType: string, url: Option<string>): (v: Validation)
    ensures v.valid <==> v.message == ValidUrlMessage
  {
    if url.None? then Validation(false, EmptyUrlMessage)
    else ValidateStripped(webhookType, Strip(StrWhitespace, url.value))
  }

  /** The checks of `ValidateWebhookUrl` on the stripped URL. */
  function ValidateStripped(webhookType: string, u: string): (v: Validation)
    ensures v.valid <==> v.message == ValidUrlMessage
  {
    if u == [] then Validation(false, EmptyUrlMessage)
    else if !HasWebScheme(u) then Validation(false, SchemeMessage)
    else if webhookType == "discord" && !(Contains(u, "discord.com") && Contains(u, "/webhooks/")) then
      Validation(false, DiscordUrlMessage)
    else if webhookType == "slack" && !Contains(u, "hooks.slack.com") then
      Validation(false, SlackUrlMessage)
    else if webhookType == "teams" && !Contains(u, "outlook.office.com") && !Contains(u, "outlook.office365.com") then
      Validation(false, TeamsUrlMessage)
    else Validation(true, ValidUrlMessage)
  }

  /** The URL contains `sub` somewhere. */
  ghost predicate Mentions(u: string, sub: string) {
    exists i :: OccursAt(u, sub, i)
  }

  /**
   * A URL is accepted exactly when it is present and not blank, its stripped
   * form has an HTTP(S) scheme, and it mentions what the type requires:
   * Discord both discord.com and /webhooks/, Slack hooks.slack.com, Teams
   * outlook.office.com or outlook.office365.com, every other type nothing.
   */
  lemma ValidateWebhookUrlIff(webhookType: string, url: Option<string>)
    ensures ValidateWebhookUrl(webhookType, url).valid <==>
              && url.Some? && !AllSpace(StrWhitespace, url.value)
              && HasWebScheme(Strip(StrWhitespace, url.value))
              && (webhookType == "discord" ==> Mentions(Strip(StrWhitespace, url.value), "discord.com") && Mentions(Strip(StrWhitespace, url.value), "/webhooks/"))
              && (webhookType == "slack" ==> Mentions(Strip(StrWhitespace, url.value), "hooks.slack.com"))
              && (webhookType == "teams" ==> Mentions(Strip(StrWhitespace, url.value), "outlook.office.com") || Mentions(Strip(StrWhitespace, url.value), "outlook.office365.com"))
  {
    if url.Some? {
      var u := Strip(StrWhitespace, url.value);
      assert u == [] <==> AllSpace(StrWhitespace, url.value);
      ValidateStrippedIff(webhookType, u);
    }
  }

  lemma ValidateStrippedIff(webhookType: string, u: string)
    ensures ValidateStripped(webhookType, u).valid <==>
              && u != [] && HasWebScheme(u)
              && (webhookType == "discord" ==> Mentions(u, "discord.com") && Mentions(u, "/webhooks/"))
              && (webhookType == "slack" ==> Mentions(u, "hooks.slack.com"))
              && (webhookType == "teams" ==> Mentions(u, "outlook.office.com") || Mentions(u, "outlook.office365.com"))
  {
  }

  /** A missing, empty or all-whitespace URL is refused as empty, whatever the type. */
  lemma BlankUrlIsEmpty(webhookType: string, url: Option<string>)
    requires url.None? || AllSpace(StrWhitespace, url.value)
    ensures ValidateWebhookUrl(webhookType, url) == Validation(false, EmptyUrlMessage)
  {
  }

  /** A non-blank URL without an HTTP(S) scheme is refused for its scheme, before any host check. */
  lemma SchemeCheckedFirst(webhookType: string, s: string)
    requires !AllSpace(StrWhitespace, s) && !HasWebScheme(Strip(StrWhitespace, s))
    ensures ValidateWebhookUrl(webhookType, Some(s)) == Validation(false, SchemeMessage)
  {
  }

  /** Types without a host rule (gotify, generic and any unknown type) accept every non-blank HTTP(S) URL. */
  lemma UncheckedTypesNeedOnlyScheme(webhookType: string, s: string)
    requires webhookType !in {"discord", "slack", "teams"}
    ensures ValidateWebhookUrl(webhookType, Some(s)).valid <==> !AllSpace(StrWhitespace, s) && HasWebScheme(Strip(StrWhitespace, s))
  {
    assert webhookType != "discord" && webhookType != "slack" && webhookType != "teams";
    var u := Strip(StrWhitespace, s);
    assert u == [] <==> AllSpace(StrWhitespace, s);
    assert ValidateStripped(webhookType, u).valid <==> u != [] && HasWebScheme(u);
  }

  /** Surrounding whitespace never changes the verdict. */
  lemma ValidationIgnoresSurroundingSpace(webhookType: string, s: string)
    ensures ValidateWebhookUrl(webhookType, Some(Strip(StrWhitespace, s))) == ValidateWebhookUrl(webhookType, Some(s))
  {
    StripIdempotent(StrWhitespace, s);
    SameStripSameVerdict(webhookType, Strip(StrWhitespace, s), s);
  }

  /** The verdict depends on the URL only through its stripped form. */
  lemma SameStripSameVerdict(webhookType: string, a: string, b: string)
    requires Strip(StrWhitespace, a) == Strip(StrWhitespace, b)
    ensures ValidateWebhookUrl(webhookType, Some(a)) == ValidateWebhookUrl(webhookType, Some(b))
  {
  }

  // ----- the sender factory -------------------------------------------------

  /** The sender classes. */
  datatype SenderKind = Discord | Slack | Teams | Gotify | Generic

  /** The type name under which each sender is registered. */
  function TypeName(kind: SenderKind): string {
    match kind
    case Discord => "discord"
    case Slack => "slack"
    case Teams => "teams"
    case Gotify => "gotify"
    case Generic => "generic"
  }

  /** The sender registered for a webhook type; the generic one for an unregistered type. */
  function GetWebhookSender(webhookType: string): (kind: SenderKind)
    ensures TypeName(kind) == webhookType || (kind == Generic && webhookType !in {"discord", "slack", "teams", "gotify", "generic"})
  {
    if webhookType == "discord" then Discord
    else if webhookType == "slack" then Slack
    else if webhookType == "teams" then Teams
    else if webhookType == "gotify" then Gotify
    else Generic
  }

  /** Every sender is found under its own type name, and under no other. */
  lemma SenderRegistry(kind: SenderKind, webhookType: string)
    ensures GetWebhookSender(TypeName(kind)) == kind
    ensures kind != Generic ==> (GetWebhookSender(webhookType) == kind <==> webhookType == TypeName(kind))
  {
  }

  /** A type with no registered sender gets the generic sender. */
  lemma UnregisteredTypeIsGeneric(webhookType: string)
    requires webhookType !in {"discord", "slack", "teams", "gotify", "generic"}
    ensures GetWebhookSender(webhookType) == Generic
  {
  }

  // ----- payload fields shared by the senders ---------------------------------

  /** `m` with `key` set to the value when there is one, and untouched otherwise. */
  function WithOptional(m: map<string, Json>, key: string, value: Option<Json>): (r: map<string, Json>)
    ensures value.None? ==> r == m
    ensures value.Some? ==> r.Keys == m.Keys + {key} && r[key] == value.value
  {
    match value
    case None => m
    case Some(v) => m[key := v]
  }

  /** The `title` member: present only for a non-empty title. */
  function TitleField(title: Option<string>): Option<Json> {
    if Truthy(title) then Some(JString(title.value)) else None
  }

  // ----- Discord --------------------------------------------------------------

  /** Discord's default embed colour ("blurple"). */
  const DiscordBlurple := 0x7289DA

  const DiscordColorNames: map<string, int> := map[
    "red" := 0xFF0000, "orange" := 0xFF8C00, "yellow" := 0xFFFF00, "green" := 0x00FF00,
    "blue" := 0x0000FF, "purple" := 0x800080, "pink" := 0xFFC0CB]

  /** How a colour argument ends up in a Discord embed. */
  datatype ColorKey = NoColor | Color(value: int) | BadHex

  /**
   * The embed colour: blurple without a colour; a `#` colour read as a
   * hexadecimal integer (an unparsable one raises); a known name, in any
   * letter case, through the table; no colour at all for anything else.
   */
  function DiscordColor(color: Option<string>): (k: ColorKey)
    ensures !Truthy(color) ==> k == Color(DiscordBlurple)
    ensures k.BadHex? <==> Truthy(color) && StartsWith(color.value, "#") && ParseHex(color.value[1..]).None?
    ensures k.NoColor? ==> Truthy(color) && !StartsWith(color.value, "#") && Lower(color.value) !in DiscordColorNames
  {
    if !Truthy(color) then Color(DiscordBlurple)
    else
      var c := color.value;
      if StartsWith(c, "#") then
        match ParseHex(c[1..])
        case Some(n) => Color(n)
        case None => BadHex
      else if Lower(c) in DiscordColorNames then Color(DiscordColorNames[Lower(c)])
      else NoColor
  }

  /** Without a colour (absent or empty) the embed is blurple. */
  lemma DiscordDefaultColor(color: Option<string>)
    requires !Truthy(color)
    ensures DiscordColor(color) == Color(0x7289DA)
  {
  }

  /** `#` followed by the hex spelling of a number gives that number back. */
  lemma DiscordHexColor(n: nat)
    ensures DiscordColor(Some("#" + FormatHex(n))) == Color(n)
  {
    var c := "#" + FormatHex(n);
    assert StartsWith(c, "#") && c[1..] == FormatHex(n);
    ParseFormatHex(n);
  }

  /** A `#` colour whose digits begin or end with an ASCII separator fails, so the Discord payload cannot be prepared. */
  lemma DiscordSeparatorColorFails(digits: string)
    requires digits != [] && (IsSeparator(digits[0]) || IsSeparator(digits[|digits| - 1]))
    ensures DiscordColor(Some("#" + digits)) == BadHex
    ensures PrepareFails(Discord, Some("#" + digits))
  {
    var c := "#" + digits;
    assert StartsWith(c, "#") && c[1..] == digits;
    ParseRejectsSeparator(digits);
  }

  /** Colour names are matched regardless of letter case. */
  lemma DiscordNamesIgnoreCase(c: string)
    requires c != "" && !StartsWith(c, "#")
    ensures DiscordColor(Some(c)) == DiscordColor(Some(Lower(c)))
  {
    LowerIdempotent(c);
    assert Lower(c)[0] == LowerChar(c[0]);
  }

  /** A name outside the table, in any letter case, leaves the embed without a colour. */
  lemma DiscordUnknownName(c: string)
    requires c != "" && !StartsWith(c, "#") && Lower(c) !in DiscordColorNames
    ensures DiscordColor(Some(c)) == NoColor
  {
  }

  /** Each colour name of the table gives its own value. */
  lemma DiscordNamedColor(name: string)
    requires name in DiscordColorNames
    ensures DiscordColor(Some(name)) == Color(DiscordColorNames[name])
  {
    NamesAreLowerCase(name);
    assert !StartsWith(name, "#") by {
      assert name[0] != '#';
    }
    DiscordLowerName(name);
  }

  /** A colour without `#` whose lower-case form is in the table gets that entry. */
  lemma DiscordLowerName(c: string)
    requires c != "" && !StartsWith(c, "#") && Lower(c) in DiscordColorNames
    ensures DiscordColor(Some(c)) == Color(DiscordColorNames[Lower(c)])
  {
  }

  /** The colour names of every table are already lower case. */
  lemma NamesAreLowerCase(name: string)
    requires name in {"red", "orange", "yellow", "green", "blue", "purple", "pink"}
    ensures name != "" && Lower(name) == name
  {
    assert forall i :: 0 <= i < |name| ==> 'a' <= name[i] <= 'z';
  }

  /** The `color` member of an embed, when there is one. */
  function ColorField(key: ColorKey): Option<Json> {
    if key.Color? then Some(JInt(key.value)) else None
  }

  /** A single-embed Discord message. */
  function Embeds(embed: map<string, Json>): Json {
    JObject(map["embeds" := JArray([JObject(embed)])])
  }

  /**
   * The Discord payload: one embed holding the message, the timestamp, the
   * footer, the title when given and the colour chosen by `DiscordColor`;
   * None when a `#` colour is not a hexadecimal integer (the ValueError).
   */
  function DiscordJson(message: string, title: Option<string>, color: Option<string>, clock: Clock): (r: Option<Json>)
    ensures r.None? <==> DiscordColor(color).BadHex?
    ensures r.Some? ==> r.value.JObject? && r.value.fields.Keys == {"embeds"}
  {
    if DiscordColor(color).BadHex? then None
    else
      Some(Embeds(WithOptional(WithOptional(
        map["description" := JString(message), "timestamp" := JString(clock.isoformat),
            "footer" := JObject(map["text" := JString(Footer)])],
        "title", TitleField(title)),
        "color", ColorField(DiscordColor(color)))))
  }

  /** Builds the Discord payload field by field. */
  method DiscordPayload(message: string, title: Option<string>, color: Option<string>, clock: Clock) returns (r: Option<Json>)
    ensures r.None? <==> DiscordColor(color).BadHex?
    ensures r == DiscordJson(message, title, color, clock)
  {
    var embed := map[
      "description" := JString(message),
      "timestamp" := JString(clock.isoformat),
      "footer" := JObject(map["text" := JString(Footer)])];
    if Truthy(title) {
      embed := embed["title" := JString(title.value)];
    }
    if Truthy(color) {
      var c := color.value;
      if StartsWith(c, "#") {
        var parsed := ParseHex(c[1..]);
        if parsed.None? {
          return None;
        }
        embed := embed["color" := JInt(parsed.value)];
      } else if Lower(c) in DiscordColorNames {
        embed := embed["color" := JInt(DiscordColorNames[Lower(c)])];
      }
    } else {
      embed := embed["color" := JInt(DiscordBlurple)];
    }
    return Some(Embeds(embed));
  }

  // ----- Slack ----------------------------------------------------------------

  const SlackColorNames: map<string, string> := map[
    "red" := "danger", "orange" := "warning", "yellow" := "warning", "green" := "good"]

  /** The attachment colour: a known name, in any letter case, becomes a Slack keyword; anything else is passed on. */
  function SlackColor(color: Option<string>): (r: Option<string>)
    ensures r.None? <==> !Truthy(color)
    ensures r.Some? ==> r.value in {"danger", "warning", "good"} || r == color
  {
    if !Truthy(color) then None
    else if Lower(color.value) in SlackColorNames then Some(SlackColorNames[Lower(color.value)])
    else Some(color.value)
  }

  /** Red is danger, orange and yellow are warning, green is good; no colour gives no `color` member. */
  lemma SlackColorKeywords(color: Option<string>)
    ensures !Truthy(color) <==> SlackColor(color).None?
    ensures Truthy(color) && Lower(color.value) == "red" ==> SlackColor(color) == Some("danger")
    ensures Truthy(color) && Lower(color.value) in {"orange", "yellow"} ==> SlackColor(color) == Some("warning")
    ensures Truthy(color) && Lower(color.value) == "green" ==> SlackColor(color) == Some("good")
    ensures Truthy(color) && Lower(color.value) !in SlackColorNames ==> SlackColor(color) == color
  {
  }

  /** Slack's own keywords pass through, so mapping a colour twice is the same as once. */
  lemma SlackColorIdempotent(color: Option<string>)
    ensures SlackColor(SlackColor(color)) == SlackColor(color)
  {
    if Truthy(color) && Lower(color.value) in SlackColorNames {
      var k := SlackColorNames[Lower(color.value)];
      assert k in {"danger", "warning", "good"};
      assert Lower(k) == k by {
        assert forall i :: 0 <= i < |k| ==> 'a' <= k[i] <= 'z';
      }
    }
  }

  /** The Slack payload: one attachment with the text, the epoch-second timestamp, the footer, the title when given and the colour. */
  function SlackJson(message: string, title: Option<string>, color: Option<string>, clock: Clock): (r: Json)
    ensures r.JObject? && r.fields.Keys == {"attachments"}
  {
    JObject(map["attachments" := JArray([JObject(WithOptional(WithOptional(
      map["text" := JString(message), "ts" := JInt(clock.epochSeconds), "footer" := JString(Footer)],
      "title", TitleField(title)),
      "color", if Truthy(color) then Some(JString(SlackColor(color).value)) else None))])])
  }

  /** Builds the Slack payload field by field. */
  method SlackPayload(message: string, title: Option<string>, color: Option<string>, clock: Clock) returns (r: Json)
    ensures r == SlackJson(message, title, color, clock)
  {
    var attachment := map[
      "text" := JString(message),
      "ts" := JInt(clock.epochSeconds),
      "footer" := JString(Footer)];
    if Truthy(title) {
      attachment := attachment["title" := JString(title.value)];
    }
    if Truthy(color) {
      var c := color.value;
      if Lower(c) in SlackColorNames {
        attachment := attachment["color" := JString(SlackColorNames[Lower(c)])];
      } else if c in ["good", "warning", "danger"] {
        attachment := attachment["color" := JString(c)];
      } else {
        attachment := attachment["color" := JString(c)];
      }
    }
    return JObject(map["attachments" := JArray([JObject(attachment)])]);
  }

  // ----- Microsoft Teams ------------------------------------------------------

  const TeamsColorNames: map<string, string> := map[
    "red" := "FF0000", "orange" := "FF8C00", "yellow" := "FFD700", "green" := "00FF00",
    "blue" := "0078D4", "purple" := "800080"]

  const TeamsDefaultSummary := "Subscription Tracker Notification"

  /** The card's theme colour: a known name through the table, a `#` colour without its `#`, anything else as given. */
  function TeamsThemeColor(color: Option<string>): (r: Option<string>)
    ensures r.None? <==> !Truthy(color)
    ensures r.Some? ==> r.value in TeamsColorNames.Values || r == color ||
                        (StartsWith(color.value, "#") && r.value == color.value[1..])
  {
    if !Truthy(color) then None
    else if Lower(color.value) in TeamsColorNames then Some(TeamsColorNames[Lower(color.value)])
    else if StartsWith(color.value, "#") then Some(color.value[1..])
    else Some(color.value)
  }

  /** A `#RRGGBB` colour reaches Teams as its bare digits. */
  lemma TeamsStripsHash(digits: string)
    ensures TeamsThemeColor(Some("#" + digits)) == Some(digits)
  {
    var c := "#" + digits;
    assert Lower(c)[0] == '#';
    assert c[1..] == digits;
  }

  /** A colour name reaches Teams as the table's digits whatever its letter case. */
  lemma TeamsNamedColor(name: string, c: string)
    requires name in TeamsColorNames && Lower(c) == name
    ensures TeamsThemeColor(Some(c)) == Some(TeamsColorNames[name])
  {
  }

  /** Any other colour, neither a table name in any letter case nor a `#` colour, reaches Teams as given. */
  lemma TeamsOtherColorKept(c: string)
    requires c != "" && !StartsWith(c, "#") && Lower(c) !in TeamsColorNames
    ensures TeamsThemeColor(Some(c)) == Some(c)
  {
  }

  /** Every named Teams colour is six hexadecimal digits, and every Teams name is also a Discord name. */
  lemma TeamsNamesAreHex(name: string)
    requires name in TeamsColorNames
    ensures |TeamsColorNames[name]| == 6
    ensures forall i :: 0 <= i < 6 ==> IsHexDigit(TeamsColorNames[name][i])
    ensures name in DiscordColorNames
  {
  }

  /** The Teams message card: fixed type and context, the summary (title or a default), the text, the title and theme colour when given. */
  function TeamsJson(message: string, title: Option<string>, color: Option<string>): (r: Json)
    ensures r.JObject? && "@type" in r.fields && r.fields["@type"] == JString("MessageCard")
  {
    JObject(WithOptional(WithOptional(
      map["@type" := JString("MessageCard"), "@context" := JString("http://schema.org/extensions"),
          "summary" := JString(if Truthy(title) then title.value else TeamsDefaultSummary),
          "text" := JString(message), "potentialAction" := JArray([])],
      "title", TitleField(title)),
      "themeColor", if Truthy(color) then Some(JString(TeamsThemeColor(color).value)) else None))
  }

  /** Builds the Teams card field by field. */
  method TeamsPayload(message: string, title: Option<string>, color: Option<string>) returns (r: Json)
    ensures r == TeamsJson(message, title, color)
  {
    var card := map[
      "@type" := JString("MessageCard"),
      "@context" := JString("http://schema.org/extensions"),
      "summary" := JString(if Truthy(title) then title.value else TeamsDefaultSummary),
      "text" := JString(message),
      "potentialAction" := JArray([])];
    if Truthy(title) {
      card := card["title" := JString(title.value)];
    }
    if Truthy(color) {
      var c := color.value;
      var themeColor := c;
      if Lower(c) in TeamsColorNames {
        themeColor := TeamsColorNames[Lower(c)];
      } else if StartsWith(c, "#") {
        themeColor := c[1..];
      }
      card := card["themeColor" := JString(themeColor)];
    }
    return JObject(card);
  }

  // ----- Gotify ---------------------------------------------------------------

  const GotifyPriorities: map<string, int> := map[
    "red" := 8, "orange" := 6, "yellow" := 4, "green" := 2, "blue" := 2]

  const GotifyDefaultPriority := 4

  const GotifyDefaultTitle := "Subscription Tracker"

  /** The message priority: the table's entry for the colour, matched exactly (letter case included), else 4. */
  function GotifyPriority(color: Option<string>): (p: int)
    ensures 2 <= p <= 8
  {
    if Truthy(color) && color.value in GotifyPriorities then GotifyPriorities[color.value]
    else GotifyDefaultPriority
  }

  /** The title, defaulting to the application name. */
  function GotifyTitle(title: Option<string>): (t: string)
    ensures t != ""
  {
    if Truthy(title) then title.value else GotifyDefaultTitle
  }

  /** Red 8, orange 6, yellow 4, green and blue 2; any other colour, or none, 4. */
  lemma GotifyPriorityByColor(color: Option<string>)
    ensures color == Some("red") ==> GotifyPriority(color) == 8
    ensures color == Some("orange") ==> GotifyPriority(color) == 6
    ensures color == Some("yellow") ==> GotifyPriority(color) == 4
    ensures color == Some("green") || color == Some("blue") ==> GotifyPriority(color) == 2
    ensures !Truthy(color) || color.value !in GotifyPriorities ==> GotifyPriority(color) == 4
  {
  }

  /** Unlike the other senders, Gotify matches colour names case-sensitively: "RED" gets the default priority. */
  lemma GotifyIsCaseSensitive()
    ensures GotifyPriority(Some("RED")) == 4 && GotifyPriority(Some("red")) == 8
    ensures DiscordColor(Some("RED")) == DiscordColor(Some("red"))
  {
    assert "RED"[0] != '#';
    DiscordNamesIgnoreCase("RED");
    assert Lower("RED") == "red";
  }

  /** The Gotify message: text, priority and title (never absent). */
  function GotifyJson(message: string, title: Option<string>, color: Option<string>): (r: Json)
    ensures r.JObject? && r.fields.Keys == {"message", "priority", "title"}
  {
    JObject(map["message" := JString(message), "priority" := JInt(GotifyPriority(color)),
                "title" := JString(GotifyTitle(title))])
  }

  /** Builds the Gotify message field by field. */
  method GotifyPayload(message: string, title: Option<string>, color: Option<string>) returns (r: Json)
    ensures r == GotifyJson(message, title, color)
  {
    var priority := GotifyDefaultPriority;
    if Truthy(color) && color.value in GotifyPriorities {
      priority := GotifyPriorities[color.value];
    }
    var payload := map["message" := JString(message), "priority" := JInt(priority)];
    if Truthy(title) {
      payload := payload["title" := JString(title.value)];
    } else {
      payload := payload["title" := JString(GotifyDefaultTitle)];
    }
    return JObject(payload);
  }

  // ----- generic --------------------------------------------------------------

  /** The generic payload: text and timestamp, with title and colour passed through when given. */
  function GenericJson(message: string, title: Option<string>, color: Option<string>, clock: Clock): (r: Json)
    ensures r.JObject? && {"text", "timestamp"} <= r.fields.Keys <= {"text", "timestamp", "title", "color"}
  {
    JObject(WithOptional(WithOptional(
      map["text" := JString(message), "timestamp" := JString(clock.isoformat)],
      "title", TitleField(title)),
      "color", if Truthy(color) then Some(JString(color.value)) else None))
  }

  /** Builds the generic payload field by field. */
  method GenericPayload(message: string, title: Option<string>, color: Option<string>, clock: Clock) returns (r: Json)
    ensures r == GenericJson(message, title, color, clock)
  {
    var payload := map["text" := JString(message), "timestamp" := JString(clock.isoformat)];
    if Truthy(title) {
      payload := payload["title" := JString(title.value)];
    }
    if Truthy(color) {
      payload := payload["color" := JString(color.value)];
    }
    return JObject(payload);
  }

  // ----- dispatch -------------------------------------------------------------

  /** Payload preparation fails only for Discord, and only on an unparsable `#` colour. */
  predicate PrepareFails(kind: SenderKind, color: Option<string>) {
    kind == Discord && DiscordColor(color).BadHex?
  }

  /**
   * The payload the sender `kind` prepares; None when preparing it raises.
   * Each sender's payload is told apart by its top-level members.
   */
  function PayloadFor(kind: SenderKind, message: string, title: Option<string>, color: Option<string>, clock: Clock)
    : (r: Option<Json>)
    ensures r.None? <==> PrepareFails(kind, color)
    ensures r.Some? ==> r.value.JObject?
    ensures r.Some? && kind == Discord ==> r.value.fields.Keys == {"embeds"}
    ensures r.Some? && kind == Slack ==> r.value.fields.Keys == {"attachments"}
    ensures r.Some? && kind == Teams ==> "@type" in r.value.fields && r.value.fields["@type"] == JString("MessageCard")
    ensures r.Some? && kind == Gotify ==> r.value.fields.Keys == {"message", "priority", "title"}
    ensures r.Some? && kind == Generic ==> {"text", "timestamp"} <= r.value.fields.Keys <= {"text", "timestamp", "title", "color"}
  {
    match kind
    case Discord => DiscordJson(message, title, color, clock)
    case Slack => Some(SlackJson(message, title, color, clock))
    case Teams => Some(TeamsJson(message, title, color))
    case Gotify => Some(GotifyJson(message, title, color))
    case Generic => Some(GenericJson(message, title, color, clock))
  }

  /** Prepares the payload of the sender `kind`; None when preparing it raises. */
  method PreparePayload(kind: SenderKind, message: string, title: Option<string>, color: Option<string>, clock: Clock)
    returns (r: Option<Json>)
    ensures r == PayloadFor(kind, message, title, color, clock)
  {
    match kind
    case Discord =>
      r := DiscordPayload(message, title, color, clock);
    case Slack =>
      var p := SlackPayload(message, title, color, clock);
      r := Some(p);
    case Teams =>
      var p := TeamsPayload(message, title, color);
      r := Some(p);
    case Gotify =>
      var p := GotifyPayload(message, title, color);
      r := Some(p);
    case Generic =>
      var p := GenericPayload(message, title, color, clock);
      r := Some(p);
  }

  // ----- urgency --------------------------------------------------------------

  /** Days left as the notification counts them: no end date counts as 0. */
  function DaysOrZero(s: Subscription, today: Day): (n: nat)
    ensures n == 0 <==> s.endDate.None? || s.endDate.value <= today
    ensures n > 0 ==> s.endDate.value == today + n
  {
    DaysUntilExpiry(s, today).GetOr(0)
  }

  /** The fewest days left among the subscriptions. */
  function MinDaysLeft(subs: seq<Subscription>, today: Day): (m: nat)
    requires subs != []
    ensures forall i :: 0 <= i < |subs| ==> m <= DaysOrZero(subs[i], today)
    ensures exists i :: 0 <= i < |subs| && m == DaysOrZero(subs[i], today)
  {
    var d := DaysOrZero(subs[0], today);
    if |subs| == 1 then d
    else
      var rest := MinDaysLeft(subs[1..], today);
      assert forall i :: 1 <= i < |subs| ==> subs[i] == subs[1..][i - 1];
      if d <= rest then d
      else
        var k :| 0 <= k < |subs[1..]| && rest == DaysOrZero(subs[1..][k], today);
        assert subs[k + 1] == subs[1..][k];
        rest
  }

  /** The notification colour: red when something expires today, orange within a day, yellow within three, blue otherwise. */
  function UrgencyColor(minDays: nat): (c: string)
    ensures c in {"red", "orange", "yellow", "blue"}
    ensures c == "red" <==> minDays == 0
    ensures c == "orange" <==> minDays == 1
    ensures c == "yellow" <==> 2 <= minDays <= 3
    ensures c == "blue" <==> minDays > 3
  {
    if minDays == 0 then "red"
    else if minDays <= 1 then "orange"
    else if minDays <= 3 then "yellow"
    else "blue"
  }

  /** A subscription with no end date, or one already past or ending today, makes the notification red. */
  lemma DueSubscriptionMakesItRed(subs: seq<Subscription>, today: Day, i: int)
    requires 0 <= i < |subs|
    requires subs[i].endDate.None? || subs[i].endDate.value <= today
    ensures UrgencyColor(MinDaysLeft(subs, today)) == "red"
  {
    assert DaysOrZero(subs[i], today) == 0;
  }

  /** When nothing is due today and one subscription ends tomorrow, the notification is orange. */
  lemma NextDayMakesItOrange(subs: seq<Subscription>, today: Day, i: int)
    requires 0 <= i < |subs| && subs[i].endDate == Some(today + 1)
    requires forall j :: 0 <= j < |subs| ==> subs[j].endDate.Some? && subs[j].endDate.value > today
    ensures UrgencyColor(MinDaysLeft(subs, today)) == "orange"
  {
    var m := MinDaysLeft(subs, today);
    assert m <= DaysOrZero(subs[i], today) == 1;
    var k :| 0 <= k < |subs| && m == DaysOrZero(subs[k], today);
    assert subs[k].endDate.value > today;
  }

  /** When every subscription has at least two days left and one has at most three, the notification is yellow. */
  lemma WithinThreeDaysMakesItYellow(subs: seq<Subscription>, today: Day, i: int)
    requires 0 <= i < |subs| && subs[i].endDate.Some? && subs[i].endDate.value <= today + 3
    requires forall j :: 0 <= j < |subs| ==> subs[j].endDate.Some? && subs[j].endDate.value >= today + 2
    ensures UrgencyColor(MinDaysLeft(subs, today)) == "yellow"
  {
    var m := MinDaysLeft(subs, today);
    assert m <= DaysOrZero(subs[i], today) <= 3;
    var k :| 0 <= k < |subs| && m == DaysOrZero(subs[k], today);
    assert subs[k].endDate.value >= today + 2;
  }

  /** When every subscription has more than three days left, the notification is blue. */
  lemma DistantSubscriptionsAreBlue(subs: seq<Subscription>, today: Day)
    requires subs != []
    requires forall i :: 0 <= i < |subs| ==> subs[i].endDate.Some? && subs[i].endDate.value > today + 3
    ensures UrgencyColor(MinDaysLeft(subs, today)) == "blue"
  {
    var m := MinDaysLeft(subs, today);
    var k :| 0 <= k < |subs| && m == DaysOrZero(subs[k], today);
    assert subs[k].endDate.value > today + 3;
  }

  /** Fewer days left never lowers the Gotify priority of the notification. */
  lemma UrgencyPriorityAntitone(d1: nat, d2: nat)
    requires d1 <= d2
    ensures GotifyPriority(Some(UrgencyColor(d1))) >= GotifyPriority(Some(UrgencyColor(d2)))
  {
  }

  /** Every urgency colour is a name each sender knows, so preparing the notification never fails. */
  lemma UrgencyColorsPrepare(minDays: nat, kind: SenderKind)
    ensures !PrepareFails(kind, Some(UrgencyColor(minDays)))
    ensures DiscordColor(Some(UrgencyColor(minDays))).Color?
    ensures Lower(UrgencyColor(minDays)) in TeamsColorNames
  {
    var c := UrgencyColor(minDays);
    assert Lower(c) == c by {
      assert forall i :: 0 <= i < |c| ==> 'a' <= c[i] <= 'z';
    }
    assert !StartsWith(c, "#") by {
      assert c[0] != '#';
    }
  }

  // ----- sending --------------------------------------------------------------

  /** A configured webhook; `lastUsed` is the clock reading of its last accepted post. */
  class Webhook {
    const webhookType: string
    const name: string
    const url: string
    var lastUsed: Option<Clock>

    constructor (webhookType: string, name: string, url: string)
      ensures this.webhookType == webhookType && this.name == name && this.url == url
      ensures lastUsed == None
    {
      this.webhookType := webhookType;
      this.name := name;
      this.url := url;
      lastUsed := None;
    }

    /**
     * Sends one message through the sender of this webhook's type.
     * `posted` is the body posted to `url`, None when no payload could be
     * prepared and nothing was posted; `accepted` is the endpoint's answer
     * to the post. Only an accepted post stamps `lastUsed`.
     */
    method Send(message: string, title: Option<string>, color: Option<string>, clock: Clock, accepted: bool)
      returns (success: bool, posted: Option<Json>)
      modifies this
      ensures posted == PayloadFor(GetWebhookSender(webhookType), message, title, color, clock)
      ensures success <==> !PrepareFails(GetWebhookSender(webhookType), color) && accepted
      ensures lastUsed == if success then Some(clock) else old(lastUsed)
    {
      posted := PreparePayload(GetWebhookSender(webhookType), message, title, color, clock);
      if posted.None? || !accepted {
        return false, posted;
      }
      lastUsed := Some(clock);
      return true, posted;
    }
  }

  /** The number of true entries. */
  function CountTrue(s: seq<bool>): (n: nat)
    ensures n <= |s|
  {
    if s == [] then 0 else CountTrue(s[..|s| - 1]) + (if s[|s| - 1] then 1 else 0)
  }

  /** No true entry counts 0, and only an all-true sequence counts its full length. */
  lemma {:induction false} CountTrueExtremes(s: seq<bool>)
    ensures CountTrue(s) == 0 <==> forall i :: 0 <= i < |s| ==> !s[i]
    ensures CountTrue(s) == |s| <==> forall i :: 0 <= i < |s| ==> s[i]
  {
    if s != [] {
      var t := s[..|s| - 1];
      CountTrueExtremes(t);
      assert forall i :: 0 <= i < |t| ==> t[i] == s[i];
    }
  }

  /** The decimal spelling of a natural number, as `str(n)` writes it. */
  function DecimalString(n: nat): (s: string)
    ensures s != []
    ensures forall i :: 0 <= i < |s| ==> '0' <= s[i] <= '9'
  {
    if n < 10 then ["0123456789"[n]] else DecimalString(n / 10) + ["0123456789"[n % 10]]
  }

  /** The number a string of decimal digits spells, most significant digit first. */
  function DecimalValue(s: string): nat
    requires forall i :: 0 <= i < |s| ==> '0' <= s[i] <= '9'
  {
    if s == [] then 0 else DecimalValue(s[..|s| - 1]) * 10 + (s[|s| - 1] as int - '0' as int)
  }

  /** Reading back the decimal spelling of `n` gives `n`. */
  lemma {:induction false} DecimalRoundTrip(n: nat)
    ensures DecimalValue(DecimalString(n)) == n
    decreases n
  {
    var s := DecimalString(n);
    if n >= 10 {
      DecimalRoundTrip(n / 10);
      assert s[..|s| - 1] == DecimalString(n / 10);
    } else {
      assert s[..|s| - 1] == [];
    }
  }

  const TitlePrefix := "🔔 "
  const TitleSuffix := " Subscription(s) Expiring Soon"

  /** The notification title: the bell, the number of expiring subscriptions in decimal, and the fixed wording. */
  function NotificationTitle(count: nat): (t: string)
    ensures |t| > |TitlePrefix| + |TitleSuffix|
    ensures t[..|TitlePrefix|] == TitlePrefix && t[|t| - |TitleSuffix|..] == TitleSuffix
    ensures var digits := t[|TitlePrefix|..|t| - |TitleSuffix|];
              (forall i :: 0 <= i < |digits| ==> '0' <= digits[i] <= '9') && DecimalValue(digits) == count
  {
    var d := DecimalString(count);
    var t := TitlePrefix + d + TitleSuffix;
    assert t[..|TitlePrefix|] == TitlePrefix;
    assert t[|t| - |TitleSuffix|..] == TitleSuffix;
    assert t[|TitlePrefix|..|t| - |TitleSuffix|] == d;
    DecimalRoundTrip(count);
    t
  }

  /**
   * The body a webhook of sender `kind` is posted for `count` expiring
   * subscriptions, the nearest `minDays` away: that sender's payload titled
   * by the count and coloured by the urgency; it always prepares.
   */
  function NotificationPayload(kind: SenderKind, message: string, count: nat, minDays: nat, clock: Clock): (r: Json)
    ensures Some(r) == PayloadFor(kind, message, Some(NotificationTitle(count)), Some(UrgencyColor(minDays)), clock)
  {
    UrgencyColorsPrepare(minDays, kind);
    PayloadFor(kind, message, Some(NotificationTitle(count)), Some(UrgencyColor(minDays)), clock).value
  }

  /**
   * One webhook's share of a notification: it is posted the notification
   * body of its sender, which always prepares, so the post's answer decides.
   * The body is stated for the sender `k` of `hook`, so that a caller
   * unfolds it only where it compares bodies.
   */
  method NotifyHook(hook: Webhook, message: string, count: nat, minDays: nat, clock: Clock, accepted: bool)
    returns (ok: bool, posted: Json)
    modifies hook
    ensures forall k {:trigger NotificationPayload(k, message, count, minDays, clock)} ::
              k == GetWebhookSender(hook.webhookType) ==> posted == NotificationPayload(k, message, count, minDays, clock)
    ensures ok == accepted
    ensures hook.lastUsed == if accepted then Some(clock) else old(hook.lastUsed)
  {
    var title := NotificationTitle(count);
    var color := UrgencyColor(minDays);
    UrgencyColorsPrepare(minDays, GetWebhookSender(hook.webhookType));
    var payload;
    ok, payload := hook.Send(message, Some(title), Some(color), clock, accepted);
    posted := payload.value;
  }

  /**
   * Posts one notification to every webhook, in order, and returns how many
   * posts were accepted (`accepted[i]` is the answer of `hooks[i]`) and the
   * bodies posted (`posts[i]` to `hooks[i]`).
   */
  method NotifyAll(hooks: seq<Webhook>, message: string, count: nat, minDays: nat, clock: Clock, accepted: seq<bool>)
    returns (sent: nat, posts: seq<Json>)
    requires |accepted| == |hooks|
    requires forall i, j :: 0 <= i < |hooks| && 0 <= j < |hooks| && i != j ==> hooks[i] != hooks[j]
    modifies set h | h in hooks
    ensures sent == CountTrue(accepted)
    ensures |posts| == |hooks|
    ensures forall i {:trigger posts[i]} :: 0 <= i < |hooks| ==>
              posts[i] == NotificationPayload(GetWebhookSender(hooks[i].webhookType), message, count, minDays, clock)
    ensures forall i :: 0 <= i < |hooks| ==>
              hooks[i].lastUsed == if accepted[i] then Some(clock) else old(hooks[i].lastUsed)
  {
    sent, posts := 0, [];
    for i := 0 to |hooks|
      invariant sent == CountTrue(accepted[..i])
      invariant |posts| == i
      invariant forall j {:trigger posts[j]} :: 0 <= j < i ==>
                  posts[j] == NotificationPayload(GetWebhookSender(hooks[j].webhookType), message, count, minDays, clock)
      invariant forall j :: 0 <= j < i ==>
                  hooks[j].lastUsed == (if accepted[j] then Some(clock) else old(hooks[j].lastUsed))
      invariant forall j :: i <= j < |hooks| ==> hooks[j].lastUsed == old(hooks[j].lastUsed)
    {
      var ok, posted := NotifyHook(hooks[i], message, count, minDays, clock, accepted[i]);
      if ok {
        sent := sent + 1;
      }
      posts := posts + [posted];
      assert accepted[..i + 1][..i] == accepted[..i];
    }
    assert accepted[..|hooks|] == accepted;
  }

  /**
   * Notifies every active webhook of the expiring subscriptions, titled by
   * their number and coloured by the urgency of the fewest days left.
   * Nothing is sent when no subscription is expiring.
   */
  method SendAllNotifications(subs: seq<Subscription>, hooks: seq<Webhook>, today: Day, message: string,
                              clock: Clock, accepted: seq<bool>) returns (sent: nat, posts: seq<Json>)
    requires |accepted| == |hooks|
    requires forall i, j :: 0 <= i < |hooks| && 0 <= j < |hooks| && i != j ==> hooks[i] != hooks[j]
    modifies set h | h in hooks
    ensures sent == if subs == [] then 0 else CountTrue(accepted)
    ensures |posts| == if subs == [] then 0 else |hooks|
    ensures forall i {:trigger posts[i]} :: 0 <= i < |posts| ==>
              posts[i] == NotificationPayload(GetWebhookSender(hooks[i].webhookType), message, |subs|,
                                              MinDaysLeft(subs, today), clock)
    ensures forall i :: 0 <= i < |hooks| ==>
              hooks[i].lastUsed == if subs != [] && accepted[i] then Some(clock) else old(hooks[i].lastUsed)
  {
    if subs == [] {
      return 0, [];
    }
    sent, posts := NotifyAll(hooks, message, |subs|, MinDaysLeft(subs, today), clock, accepted);
  }
}
