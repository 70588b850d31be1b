/**
 * The rich-message builder handlers fill in (`CreateEmbed`) and the simple
 * replies a handler sends. The embed colour is left out.
 */
module Embeds {
  import opened Wrappers

  datatype Footer = Footer(text: Option<string>, iconUrl: Option<string>)

  datatype Field = Field(name: string, value: string, inline: bool)

  /** Everything an embed builder has been given so far. */
  datatype EmbedView = EmbedView(
    title: Option<string>,
    description: Option<string>,
    thumbnail: Option<string>,
    footer: Option<Footer>,
    timestamp: Option<string>,
    fields: seq<Field>)

  const Blank := EmbedView(None, None, None, None, None, [])

  /** A message a handler sends that is not built field by field. */
  datatype Reply =
    | EmbedReply(title: string, description: string)
    | ContentReply(content: string)
    | ErrorReply(message: string)

  class EmbedBuilder {
    var title: Option<string>
    var description: Option<string>
    var thumbnail: Option<string>
    var footer: Option<Footer>
    var timestamp: Option<string>
    var fields: seq<Field>

    function View(): EmbedView
      reads this
    {
      EmbedView(title, description, thumbnail, footer, timestamp, fields)
    }

    constructor ()
      ensures View() == Blank
    {
      title, description, thumbnail := None, None, None;
      footer, timestamp, fields := None, None, [];
    }

    method SetTitle(t: string)
      modifies this
      ensures View() == old(View()).(title := Some(t))
    {
      title := Some(t);
    }

    method SetDescription(d: string)
      modifies this
      ensures View() == old(View()).(description := Some(d))
    {
      description := Some(d);
    }

    method SetThumbnail(url: string)
      modifies this
      ensures View() == old(View()).(thumbnail := Some(url))
    {
      thumbnail := Some(url);
    }

    method SetFooter(f: Footer)
      modifies this
      ensures View() == old(View()).(footer := Some(f))
    {
      footer := Some(f);
    }

    method SetTimestamp(ts: string)
      modifies this
      ensures View() == old(View()).(timestamp := Some(ts))
    {
      timestamp := Some(ts);
    }

    method AddField(name: string, value: string, inline: bool)
      modifies this
      ensures View() == old(View()).(fields := old(fields) + [Field(name, value, inline)])
    {
      fields := fields + [Field(name, value, inline)];
    }
  }
}
