/**
 * `checkPermissions(feed, format, bot)`: whether a feed is to be skipped because it
 * is disabled, given its `disabled` reason, the channel permissions the bot holds and
 * whether its format has embeds. The `feed.disable(reason)` / `feed.enable()` calls it
 * fires and forgets are returned as an Action.
 */
module Permissions {
  import opened Wrappers

  const MISSING_PREFIX := "Missing permissions"

  const SEND_MESSAGES := "SEND_MESSAGES"
  const EMBED_LINKS := "EMBED_LINKS"
  const VIEW_CHANNEL := "VIEW_CHANNEL"

  /** The three permissions `guild.me.permissionsIn(channel)` is asked for. */
  datatype ChannelPermissions = ChannelPermissions(view: bool, sendMessages: bool, embedLinks: bool)

  datatype Action =
    | NoAction
    | Disable(reason: string)        // `feed.disable(reason)` on a feed that was not disabled
    | UpdateReason(reason: string)   // `feed.disable(reason)` replacing another "Missing permissions" reason
    | Enable                         // `feed.enable()`

  datatype Decision = Decision(disabled: bool, action: Action)

  /** A format exists and has at least one embed: only then is EMBED_LINKS required. */
  predicate NeedsEmbedLinks(formatEmbeds: Option<nat>) {
    formatEmbeds.Some? && formatEmbeds.value > 0
  }

  /** The names pushed onto `reasons`, in push order. */
  function MissingNames(p: ChannelPermissions, formatEmbeds: Option<nat>): seq<string> {
    (if !p.sendMessages then [SEND_MESSAGES] else [])
    + (if NeedsEmbedLinks(formatEmbeds) && !p.embedLinks then [EMBED_LINKS] else [])
    + (if !p.view then [VIEW_CHANNEL] else [])
  }

  /** `names.join(sep)`. */
  function Join(names: seq<string>, sep: string): string {
    if |names| == 0 then ""
    else if |names| == 1 then names[0]
    else names[0] + sep + Join(names[1..], sep)
  }

  function Reason(names: seq<string>): string {
    MISSING_PREFIX + " " + Join(names, ", ")
  }

  function CheckPermissions(disabled: Option<string>, p: ChannelPermissions, formatEmbeds: Option<nat>): Decision {
    if Truthy(disabled) && !StartsWith(disabled.value, MISSING_PREFIX) then
      Decision(true, NoAction)
    else
      var allowEmbedLinks := !NeedsEmbedLinks(formatEmbeds) || p.embedLinks;
      if !p.sendMessages || !allowEmbedLinks || !p.view then
        var reason := Reason(MissingNames(p, formatEmbeds));
        if !Truthy(disabled) then Decision(true, Disable(reason))
        else if StartsWith(disabled.value, MISSING_PREFIX) && disabled.value != reason then Decision(true, UpdateReason(reason))
        else Decision(true, NoAction)
      else if Truthy(disabled) && StartsWith(disabled.value, MISSING_PREFIX) then
        Decision(false, Enable)
      else
        Decision(Truthy(disabled), NoAction)
  }

  /** The `disabled` value a feed holds once the action has been carried out. */
  function Apply(disabled: Option<string>, a: Action): Option<string> {
    match a
    case NoAction => disabled
    case Disable(r) => Some(r)
    case UpdateReason(r) => Some(r)
    case Enable => None
  }

  predicate AnyMissing(p: ChannelPermissions, formatEmbeds: Option<nat>) {
    !p.sendMessages || !p.view || (NeedsEmbedLinks(formatEmbeds) && !p.embedLinks)
  }

  // ---------------------------------------------------------------- properties

  /** A feed disabled for another reason is skipped with no check and no call. */
  lemma OtherReasonSkips(disabled: Option<string>, p: ChannelPermissions, formatEmbeds: Option<nat>)
    requires Truthy(disabled) && !StartsWith(disabled.value, MISSING_PREFIX)
    ensures CheckPermissions(disabled, p, formatEmbeds) == Decision(true, NoAction)
  {
  }

  /** Otherwise the feed is skipped exactly when a required permission is missing. */
  lemma DisabledIffMissing(disabled: Option<string>, p: ChannelPermissions, formatEmbeds: Option<nat>)
    requires !Truthy(disabled) || StartsWith(disabled.value, MISSING_PREFIX)
    ensures CheckPermissions(disabled, p, formatEmbeds).disabled <==> AnyMissing(p, formatEmbeds)
  {
  }

  /** EMBED_LINKS makes no difference unless the format has an embed. */
  lemma EmbedLinksOnlyForEmbeds(disabled: Option<string>, p: ChannelPermissions, formatEmbeds: Option<nat>)
    requires !NeedsEmbedLinks(formatEmbeds)
    ensures CheckPermissions(disabled, p, formatEmbeds) == CheckPermissions(disabled, p.(embedLinks := !p.embedLinks), formatEmbeds)
  {
  }

  /** A name is listed exactly when that permission is missing, and the names keep the order SEND_MESSAGES, EMBED_LINKS, VIEW_CHANNEL. */
  lemma MissingNamesExact(p: ChannelPermissions, formatEmbeds: Option<nat>)
    ensures var names := MissingNames(p, formatEmbeds);
      && (SEND_MESSAGES in names <==> !p.sendMessages)
      && (EMBED_LINKS in names <==> NeedsEmbedLinks(formatEmbeds) && !p.embedLinks)
      && (VIEW_CHANNEL in names <==> !p.view)
      && (|names| > 0 <==> AnyMissing(p, formatEmbeds))
      && (forall i, j :: 0 <= i < j < |names| ==> Rank(names[i]) < Rank(names[j]))
  {
  }

  function Rank(name: string): nat {
    if name == SEND_MESSAGES then 0 else if name == EMBED_LINKS then 1 else 2
  }

  /** Every reason written starts with "Missing permissions", so the next check recognises it. */
  lemma ReasonIsMissingPermissions(names: seq<string>)
    ensures StartsWith(Reason(names), MISSING_PREFIX) && Reason(names) != ""
  {
    assert Reason(names) == MISSING_PREFIX + (" " + Join(names, ", "));
    PrefixOfConcat(MISSING_PREFIX, " " + Join(names, ", "));
  }

  /** What the check does to the feed, by case. */
  lemma ActionsByCase(disabled: Option<string>, p: ChannelPermissions, formatEmbeds: Option<nat>)
    requires !Truthy(disabled) || StartsWith(disabled.value, MISSING_PREFIX)
    ensures var d := CheckPermissions(disabled, p, formatEmbeds);
      var reason := Reason(MissingNames(p, formatEmbeds));
      && (AnyMissing(p, formatEmbeds) && !Truthy(disabled) ==> d.action == Disable(reason))
      && (AnyMissing(p, formatEmbeds) && Truthy(disabled) && disabled.value != reason ==> d.action == UpdateReason(reason))
      && (AnyMissing(p, formatEmbeds) && Truthy(disabled) && disabled.value == reason ==> d.action == NoAction)
      && (!AnyMissing(p, formatEmbeds) && Truthy(disabled) ==> d == Decision(false, Enable))
      && (!AnyMissing(p, formatEmbeds) && !Truthy(disabled) ==> d == Decision(false, NoAction))
  {
  }

  /**
   * Carrying out the action settles the feed: checking it again with the same
   * permissions gives the same verdict and asks for nothing more.
   */
  lemma CheckSettles(disabled: Option<string>, p: ChannelPermissions, formatEmbeds: Option<nat>)
    ensures var d := CheckPermissions(disabled, p, formatEmbeds);
      CheckPermissions(Apply(disabled, d.action), p, formatEmbeds) == Decision(d.disabled, NoAction)
  {
    var reason := Reason(MissingNames(p, formatEmbeds));
    ReasonIsMissingPermissions(MissingNames(p, formatEmbeds));
  }
}
