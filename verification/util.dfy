/** `guild_icon_url`: the CDN address of a guild's icon. */
module Util {
  import Text

  /** The range of Rust's `u16`. */
  type U16 = x: nat | x < 0x1_0000

  const IconBase := "https://cdn.discordapp.com/icons/"

  /** The file extension the URL asks for: animated icons ("a_…") as gif, others as webp. */
  function IconExtension(iconId: string): string
  {
    if Text.StartsWith(iconId, "a_") then "gif" else "webp"
  }

  function GuildIconUrl(guildId: string, iconId: string, size: U16): (url: string)
    ensures url == IconBase + guildId + "/" + iconId + "." + IconExtension(iconId) + "?size=" + Text.NatToDecimal(size)
  {
    if Text.StartsWith(iconId, "a_") then
      IconBase + guildId + "/" + iconId + ".gif?size=" + Text.NatToDecimal(size)
    else
      IconBase + guildId + "/" + iconId + ".webp?size=" + Text.NatToDecimal(size)
  }

  /** After the part that names the icon, the URL holds only the extension and the size. */
  lemma UrlTail(guildId: string, iconId: string, size: U16)
    ensures var named := IconBase + guildId + "/" + iconId;
      GuildIconUrl(guildId, iconId, size)[|named|..] == "." + IconExtension(iconId) + "?size=" + Text.NatToDecimal(size)
  {
    var named := IconBase + guildId + "/" + iconId;
    var ext, decimal := IconExtension(iconId), Text.NatToDecimal(size);
    calc {
      GuildIconUrl(guildId, iconId, size);
      named + "." + ext + "?size=" + decimal;
      { Text.AppendAssociative(named, ".", ext); }
      named + ("." + ext) + "?size=" + decimal;
      { Text.AppendAssociative(named, "." + ext, "?size="); }
      named + ("." + ext + "?size=") + decimal;
      { Text.AppendAssociative(named, "." + ext + "?size=", decimal); }
      named + ("." + ext + "?size=" + decimal);
    }
    assert (named + ("." + ext + "?size=" + decimal))[|named|..] == "." + ext + "?size=" + decimal;
  }

  /**
   * Two icons with the same "a_"-ness get the same extension: only the id
   * text itself differs between their URLs.
   */
  lemma ExtensionDependsOnlyOnPrefix(guildId: string, a: string, b: string, size: U16)
    requires Text.StartsWith(a, "a_") == Text.StartsWith(b, "a_")
    ensures |GuildIconUrl(guildId, a, size)| - |a| == |GuildIconUrl(guildId, b, size)| - |b|
    ensures GuildIconUrl(guildId, a, size)[|IconBase + guildId + "/" + a|..]
         == GuildIconUrl(guildId, b, size)[|IconBase + guildId + "/" + b|..]
  {
    UrlTail(guildId, a, size);
    UrlTail(guildId, b, size);
  }
}
