/**
 * The manage `add_server` command: post a server embed built from an
 * invite. It repeats the moderation embed, but writes the invite id taken
 * from the command text and always asks the icon CDN for a gif.
 */
module ManageServerList {
  import opened Wrappers
  import Text
  import Util
  import opened Embeds
  import ServerList

  /** The thumbnail `add_server` writes: always `.gif` at size 64. */
  function GifThumbnail(guildId: string, iconId: string): (url: string)
    ensures Util.IconBase + guildId + "/" + iconId <= url
    ensures url[|Util.IconBase + guildId + "/" + iconId|..] == ".gif?size=64"
  {
    Util.IconBase + guildId + "/" + iconId + ".gif?size=64"
  }

  /**
   * The fixed gif address agrees with `guild_icon_url(…, 64)` exactly for
   * animated icons; a static icon gets a gif address where the shared
   * helper would ask for webp.
   */
  lemma {:induction false} GifThumbnailMatchesIconUrl(guildId: string, iconId: string)
    ensures GifThumbnail(guildId, iconId) == Util.GuildIconUrl(guildId, iconId, 64)
        <==> Text.StartsWith(iconId, "a_")
  {
    assert Text.NatToDecimal(64) == "64" by {
      assert Text.NatToDecimal(6) == "6";
    }
    var prefix := Util.IconBase + guildId + "/" + iconId;
    assert GifThumbnail(guildId, iconId) == prefix + ".gif?size=64";
    if !Text.StartsWith(iconId, "a_") {
      assert Util.GuildIconUrl(guildId, iconId, 64) == prefix + ".webp?size=64";
      assert |GifThumbnail(guildId, iconId)| != |Util.GuildIconUrl(guildId, iconId, 64)|;
    }
  }

  /**
   * `add_server`, from the invite lookup on: `inviteId` is the id the command
   * text's invite link carries.
   */
  method AddServer(e: EmbedBuilder, info: ServerList.InviteInfo, inviteId: string, author: ServerList.User)
    modifies e
    ensures e.View() == old(e.View()).(
      title := Some(info.guild.name),
      description := Some(ServerList.ServerDescription(info.guild.description, inviteId,
                                                       info.approximateMemberCount, info.approximatePresenceCount)),
      thumbnail := if info.guild.icon.Some? then Some(GifThumbnail(info.guild.id, info.guild.icon.value))
                   else old(e.thumbnail),
      footer := Some(Footer(Some(if info.expiresAt.Some? then author.name + "   Expires on" else author.name),
                            author.avatarUrl)),
      timestamp := if info.expiresAt.Some? then info.expiresAt else old(e.timestamp))
  {
    e.SetTitle(info.guild.name);
    e.SetDescription(ServerList.ServerDescription(info.guild.description, inviteId,
                                                  info.approximateMemberCount, info.approximatePresenceCount));
    if info.guild.icon.Some? {
      e.SetThumbnail(GifThumbnail(info.guild.id, info.guild.icon.value));
    }
    var footer := ServerList.AuthorFooter(author, info.expiresAt);
    e.SetFooter(footer);
    if info.expiresAt.Some? {
      e.SetTimestamp(info.expiresAt.value);
    }
  }
}
