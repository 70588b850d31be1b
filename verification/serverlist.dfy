/**
 * The moderation `serverlist` command: `sort` re-orders the bot's server
 * embeds in a channel alphabetically by title, and `create_server_embed`
 * fills in one server's embed from its invite data.
 */
module ServerList {
  import opened Wrappers
  import Text
  import Util
  import opened Embeds

  // ---------------------------------------------------------------------------
  // Sorting the channel's server embeds

  /** A posted embed; the title decides the order, the rest is carried along. */
  datatype Embed = Embed(title: Option<string>, description: Option<string>)

  datatype Message = Message(id: nat, authorId: nat, embeds: seq<Embed>)

  /** One `m.edit(…set_embed(embed))` request. */
  datatype Edit = Edit(messageId: nat, embed: Embed)

  predicate IsServerMessage(m: Message, botId: nat)
  {
    m.authorId == botId && |m.embeds| > 0
  }

  /** The filter step: the bot's own messages that carry an embed, in channel order. */
  function ServerMessages(messages: seq<Message>, botId: nat): (r: seq<Message>)
    ensures |r| <= |messages|
    ensures forall i :: 0 <= i < |r| ==> IsServerMessage(r[i], botId)
  {
    if messages == [] then []
    else (if IsServerMessage(messages[0], botId) then [messages[0]] else [])
         + ServerMessages(messages[1..], botId)
  }

  /** A message is kept exactly when it is in the channel, from the bot, with an embed. */
  lemma {:induction false} ServerMessagesMembership(messages: seq<Message>, botId: nat, m: Message)
    ensures m in ServerMessages(messages, botId) <==> m in messages && IsServerMessage(m, botId)
  {
    if messages != [] {
      ServerMessagesMembership(messages[1..], botId, m);
      assert messages == [messages[0]] + messages[1..];
    }
  }

  /** The filter keeps the channel order: it distributes over concatenation. */
  lemma {:induction false} ServerMessagesAppend(a: seq<Message>, b: seq<Message>, botId: nat)
    ensures ServerMessages(a + b, botId) == ServerMessages(a, botId) + ServerMessages(b, botId)
  {
    if a == [] {
      assert a + b == b;
    } else {
      assert (a + b)[0] == a[0];
      assert (a + b)[1..] == a[1..] + b;
      ServerMessagesAppend(a[1..], b, botId);
    }
  }

  /** `m.embeds[0]` of each message. */
  function FirstEmbeds(messages: seq<Message>): (r: seq<Embed>)
    requires forall i :: 0 <= i < |messages| ==> |messages[i].embeds| > 0
    ensures |r| == |messages|
    ensures forall i :: 0 <= i < |messages| ==> r[i] == messages[i].embeds[0]
  {
    seq(|messages|, i requires 0 <= i < |messages| => messages[i].embeds[0])
  }

  /** `e.title.clone().unwrap_or_default()`: the title, or "" for an untitled embed. */
  function SortKey(e: Embed): (k: string)
    ensures e.title.Some? ==> k == e.title.value
    ensures e.title.None? ==> k == ""
  {
    e.title.GetOr("")
  }

  /** Rust's `String` order: lexicographic by character (UTF-8 byte order is code point order). */
  predicate LexLe(a: string, b: string)
  {
    a == [] || (b != [] && (a[0] < b[0] || (a[0] == b[0] && LexLe(a[1..], b[1..]))))
  }

  /** An untitled embed sorts before, or level with, every other embed. */
  lemma MissingTitleSortsFirst(e: Embed, f: Embed)
    requires e.title.None?
    ensures LexLe(SortKey(e), SortKey(f))
  {
  }

  lemma {:induction false} LexLeReflexive(a: string)
    ensures LexLe(a, a)
  {
    if a != [] {
      LexLeReflexive(a[1..]);
    }
  }

  lemma {:induction false} LexLeTotal(a: string, b: string)
    ensures LexLe(a, b) || LexLe(b, a)
  {
    if a != [] && b != [] && a[0] == b[0] {
      LexLeTotal(a[1..], b[1..]);
    }
  }

  lemma {:induction false} LexLeTransitive(a: string, b: string, c: string)
    requires LexLe(a, b) && LexLe(b, c)
    ensures LexLe(a, c)
  {
    if a != [] && b != [] && c != [] && a[0] == b[0] == c[0] {
      LexLeTransitive(a[1..], b[1..], c[1..]);
    }
  }

  predicate SortedByTitle(s: seq<Embed>)
  {
    forall i, j :: 0 <= i < j < |s| ==> LexLe(SortKey(s[i]), SortKey(s[j]))
  }

  /** Put `e` in front of the first element whose key is not smaller. */
  function Insert(e: Embed, s: seq<Embed>): (r: seq<Embed>)
    ensures |r| == |s| + 1
  {
    if s == [] then [e]
    else if LexLe(SortKey(e), SortKey(s[0])) then [e] + s
    else [s[0]] + Insert(e, s[1..])
  }

  /** `sort_by_cached_key` on the title: a stable sort, written as insertion sort. */
  function SortByTitle(s: seq<Embed>): (r: seq<Embed>)
    ensures |r| == |s|
  {
    if s == [] then [] else Insert(s[0], SortByTitle(s[1..]))
  }

  lemma {:induction false} InsertPermutes(e: Embed, s: seq<Embed>)
    ensures multiset(Insert(e, s)) == multiset(s) + multiset{e}
  {
    if s != [] && !LexLe(SortKey(e), SortKey(s[0])) {
      InsertPermutes(e, s[1..]);
      assert s == [s[0]] + s[1..];
    }
  }

  lemma {:induction false} InsertSorted(e: Embed, s: seq<Embed>)
    requires SortedByTitle(s)
    ensures SortedByTitle(Insert(e, s))
  {
    if s == [] {
    } else if LexLe(SortKey(e), SortKey(s[0])) {
      var r := [e] + s;
      forall i, j | 0 <= i < j < |r|
        ensures LexLe(SortKey(r[i]), SortKey(r[j]))
      {
        if i == 0 && j > 1 {
          LexLeTransitive(SortKey(e), SortKey(s[0]), SortKey(s[j - 1]));
        }
      }
    } else {
      var tail := Insert(e, s[1..]);
      var r := [s[0]] + tail;
      InsertSorted(e, s[1..]);
      LexLeTotal(SortKey(e), SortKey(s[0]));
      forall j | 0 <= j < |s[1..]|
        ensures LexLe(SortKey(s[0]), SortKey(s[1..][j]))
      {
        assert s[1..][j] == s[j + 1];
      }
      InsertKeepsLowerBound(SortKey(s[0]), e, s[1..]);
      forall i, j | 0 <= i < j < |r|
        ensures LexLe(SortKey(r[i]), SortKey(r[j]))
      {
        assert r[j] == tail[j - 1];
        if i > 0 {
          assert r[i] == tail[i - 1];
        }
      }
    }
  }

  /** Inserting an element no smaller than a bound into elements no smaller than it keeps the bound. */
  lemma {:induction false} InsertKeepsLowerBound(k: string, e: Embed, s: seq<Embed>)
    requires LexLe(k, SortKey(e))
    requires forall j :: 0 <= j < |s| ==> LexLe(k, SortKey(s[j]))
    ensures forall j :: 0 <= j < |Insert(e, s)| ==> LexLe(k, SortKey(Insert(e, s)[j]))
  {
    if s != [] && !LexLe(SortKey(e), SortKey(s[0])) {
      var tail := Insert(e, s[1..]);
      forall j | 0 <= j < |s[1..]|
        ensures LexLe(k, SortKey(s[1..][j]))
      {
        assert s[1..][j] == s[j + 1];
      }
      InsertKeepsLowerBound(k, e, s[1..]);
      assert Insert(e, s) == [s[0]] + tail;
      forall j | 0 <= j < |Insert(e, s)|
        ensures LexLe(k, SortKey(Insert(e, s)[j]))
      {
        if j > 0 {
          assert Insert(e, s)[j] == tail[j - 1];
        }
      }
    }
  }

  /** The sorted embeds are ordered by title and are the same embeds. */
  lemma {:induction false} SortByTitleCorrect(s: seq<Embed>)
    ensures SortedByTitle(SortByTitle(s))
    ensures multiset(SortByTitle(s)) == multiset(s)
  {
    if s != [] {
      SortByTitleCorrect(s[1..]);
      InsertSorted(s[0], SortByTitle(s[1..]));
      InsertPermutes(s[0], SortByTitle(s[1..]));
      assert s == [s[0]] + s[1..];
    }
  }

  /** The embeds whose key is `k`, in order. */
  function WithKey(s: seq<Embed>, k: string): seq<Embed>
  {
    if s == [] then [] else (if SortKey(s[0]) == k then [s[0]] else []) + WithKey(s[1..], k)
  }

  lemma WithKeyCons(x: Embed, t: seq<Embed>, k: string)
    ensures WithKey([x] + t, k) == (if SortKey(x) == k then [x] else []) + WithKey(t, k)
  {
    assert ([x] + t)[0] == x && ([x] + t)[1..] == t;
  }

  lemma {:induction false} InsertWithKey(e: Embed, s: seq<Embed>, k: string)
    ensures WithKey(Insert(e, s), k) == (if SortKey(e) == k then [e] else []) + WithKey(s, k)
  {
    if s == [] {
      WithKeyCons(e, [], k);
      assert [e] + [] == [e];
    } else if LexLe(SortKey(e), SortKey(s[0])) {
      WithKeyCons(e, s, k);
    } else {
      var rest := Insert(e, s[1..]);
      LexLeReflexive(SortKey(e));
      assert SortKey(s[0]) != SortKey(e);
      InsertWithKey(e, s[1..], k);
      WithKeyCons(s[0], rest, k);
      WithKeyCons(s[0], s[1..], k);
      assert [s[0]] + s[1..] == s;
      if SortKey(e) == k {
        assert SortKey(s[0]) != k;
        assert WithKey(Insert(e, s), k) == WithKey(rest, k);
        assert WithKey(s, k) == WithKey(s[1..], k);
      } else {
        assert WithKey(rest, k) == WithKey(s[1..], k);
      }
    }
  }

  /** Stability: embeds with equal titles keep their relative order. */
  lemma {:induction false} SortByTitleStable(s: seq<Embed>, k: string)
    ensures WithKey(SortByTitle(s), k) == WithKey(s, k)
  {
    if s != [] {
      SortByTitleStable(s[1..], k);
      InsertWithKey(s[0], SortByTitle(s[1..]), k);
    }
  }

  /** Handing out a title-sorted list from its end gives non-increasing titles. */
  lemma PoppedInDescendingOrder(sorted: seq<Embed>, edits: seq<Edit>)
    requires SortedByTitle(sorted) && |edits| == |sorted|
    requires forall i :: 0 <= i < |edits| ==> edits[i].embed == sorted[|sorted| - 1 - i]
    ensures forall i, j :: 0 <= i < j < |edits| ==>
      LexLe(SortKey(edits[j].embed), SortKey(edits[i].embed))
  {
    forall i, j | 0 <= i < j < |edits|
      ensures LexLe(SortKey(edits[j].embed), SortKey(edits[i].embed))
    {
      assert edits[j].embed == sorted[|sorted| - 1 - j];
      assert edits[i].embed == sorted[|sorted| - 1 - i];
    }
  }

  function EditedEmbeds(edits: seq<Edit>): seq<Embed>
  {
    seq(|edits|, i requires 0 <= i < |edits| => edits[i].embed)
  }

  /**
   * The loop of `sort_servers`: for each kept message in turn, pop the last
   * remaining sorted embed and edit the message to show it.
   */
  method AssignFromEnd(messages: seq<Message>, sorted: seq<Embed>) returns (edits: seq<Edit>)
    requires |sorted| == |messages|
    ensures |edits| == |messages|
    ensures forall i :: 0 <= i < |edits| ==>
      edits[i] == Edit(messages[i].id, sorted[|sorted| - 1 - i])
    ensures multiset(EditedEmbeds(edits)) == multiset(sorted)
  {
    var embeds := sorted;
    var n := |messages|;
    edits := [];
    var i := 0;
    while i < n
      invariant 0 <= i <= n
      invariant embeds == sorted[..n - i]
      invariant |edits| == i
      invariant forall j :: 0 <= j < i ==> edits[j] == Edit(messages[j].id, sorted[n - 1 - j])
      invariant multiset(embeds) + multiset(EditedEmbeds(edits)) == multiset(sorted)
    {
      // `embeds.pop().unwrap()`: one embed is left per remaining message
      var embed := embeds[|embeds| - 1];
      assert embeds == embeds[..|embeds| - 1] + [embed];
      embeds := embeds[..|embeds| - 1];
      assert EditedEmbeds(edits + [Edit(messages[i].id, embed)]) == EditedEmbeds(edits) + [embed];
      edits := edits + [Edit(messages[i].id, embed)];
      i := i + 1;
    }
    assert embeds == [];
  }

  /**
   * `sort_servers`: keep the bot's embed messages, sort their first embeds
   * by title, then hand them out from the end of the sorted list, so the
   * i-th message gets the i-th largest title.
   */
  method SortServers(channel: seq<Message>, botId: nat) returns (edits: seq<Edit>)
    ensures var kept := ServerMessages(channel, botId);
      |edits| == |kept| && forall i :: 0 <= i < |edits| ==> edits[i].messageId == kept[i].id
    ensures var kept := ServerMessages(channel, botId);
      var sorted := SortByTitle(FirstEmbeds(kept));
      |edits| == |sorted| && forall i :: 0 <= i < |edits| ==> edits[i].embed == sorted[|sorted| - 1 - i]
    ensures forall i, j :: 0 <= i < j < |edits| ==>
      LexLe(SortKey(edits[j].embed), SortKey(edits[i].embed))
    ensures multiset(EditedEmbeds(edits)) == multiset(FirstEmbeds(ServerMessages(channel, botId)))
  {
    var messages := ServerMessages(channel, botId);
    var embeds := FirstEmbeds(messages);
    SortByTitleCorrect(embeds);
    var sorted := SortByTitle(embeds);
    edits := AssignFromEnd(messages, sorted);
    PoppedInDescendingOrder(sorted, edits);
  }

  // ---------------------------------------------------------------------------
  // The server embed

  type U32 = x: nat | x < 0x1_0000_0000

  datatype InviteGuild = InviteGuild(id: string, name: string, description: Option<string>, icon: Option<string>)

  /** The invite lookup's answer (only the fields the embed uses). */
  datatype InviteInfo = InviteInfo(code: string, guild: InviteGuild, approximateMemberCount: U32,
                                   approximatePresenceCount: U32, expiresAt: Option<string>)

  /** The command's author: display name and avatar URL, if any. */
  datatype User = User(name: string, avatarUrl: Option<string>)

  /** Guild description, invite link, then member and online counts. */
  function ServerDescription(guildDescription: Option<string>, invite: string, members: nat, online: nat): (d: string)
    ensures guildDescription.GetOr("") + "\nhttps://discord.gg/" + invite + "\n\n**" <= d
  {
    guildDescription.GetOr("") + "\nhttps://discord.gg/" + invite + "\n\n**" + Text.NatToDecimal(members)
      + "** Members, **" + Text.NatToDecimal(online) + "** Online"
  }

  /** The description cut into the part before the member count, the count, and the rest. */
  lemma ServerDescriptionParts(guildDescription: Option<string>, invite: string, members: nat, online: nat)
    ensures ServerDescription(guildDescription, invite, members, online)
         == (guildDescription.GetOr("") + "\nhttps://discord.gg/" + invite + "\n\n**")
            + (Text.NatToDecimal(members) + ("** Members, **" + (Text.NatToDecimal(online) + "** Online")))
  {
    var prefix := guildDescription.GetOr("") + "\nhttps://discord.gg/" + invite + "\n\n**";
    var m, o := Text.NatToDecimal(members), Text.NatToDecimal(online);
    calc {
      ServerDescription(guildDescription, invite, members, online);
      prefix + m + "** Members, **" + o + "** Online";
      { Text.AppendAssociative(prefix + m + "** Members, **", o, "** Online"); }
      prefix + m + "** Members, **" + (o + "** Online");
      { Text.AppendAssociative(prefix + m, "** Members, **", o + "** Online"); }
      prefix + m + ("** Members, **" + (o + "** Online"));
      { Text.AppendAssociative(prefix, m, "** Members, **" + (o + "** Online")); }
      prefix + (m + ("** Members, **" + (o + "** Online")));
    }
  }

  /**
   * The member and online counts can be read back from the description:
   * for one guild description and invite, equal descriptions mean equal counts.
   */
  lemma ServerDescriptionInjective(guildDescription: Option<string>, invite: string,
                                   members: nat, online: nat, members': nat, online': nat)
    ensures ServerDescription(guildDescription, invite, members, online)
         == ServerDescription(guildDescription, invite, members', online')
        ==> members == members' && online == online'
  {
    var prefix := guildDescription.GetOr("") + "\nhttps://discord.gg/" + invite + "\n\n**";
    var m, m', o, o' := Text.NatToDecimal(members), Text.NatToDecimal(members'),
                        Text.NatToDecimal(online), Text.NatToDecimal(online');
    var rest, rest' := "** Members, **" + (o + "** Online"), "** Members, **" + (o' + "** Online");
    ServerDescriptionParts(guildDescription, invite, members, online);
    ServerDescriptionParts(guildDescription, invite, members', online');
    if prefix + (m + rest) == prefix + (m' + rest') {
      Text.AppendCancelLeft(prefix, m + rest, m' + rest');
      Text.DigitsThenNonDigit(m, rest, m', rest');
      Text.AppendCancelLeft("** Members, **", o + "** Online", o' + "** Online");
      Text.DigitsThenNonDigit(o, "** Online", o', "** Online");
      Text.DecimalInjective(members, members');
      Text.DecimalInjective(online, online');
    }
  }

  /** The footer: the author's name, marked when the invite expires, and the avatar. */
  method AuthorFooter(author: User, expiresAt: Option<string>) returns (f: Footer)
    ensures f.text == Some(if expiresAt.Some? then author.name + "   Expires on" else author.name)
    ensures f.iconUrl == author.avatarUrl
  {
    f := Footer(None, None);
    if expiresAt.Some? {
      f := f.(text := Some(author.name + "   Expires on"));
    } else {
      f := f.(text := Some(author.name));
    }
    if author.avatarUrl.Some? {
      f := f.(iconUrl := author.avatarUrl);
    }
  }

  /** `create_server_embed`. */
  method CreateServerEmbed(e: EmbedBuilder, info: InviteInfo, author: User)
    modifies e
    ensures e.View() == old(e.View()).(
      title := Some(info.guild.name),
      description := Some(ServerDescription(info.guild.description, info.code,
                                            info.approximateMemberCount, info.approximatePresenceCount)),
      thumbnail := if info.guild.icon.Some? then Some(Util.GuildIconUrl(info.guild.id, info.guild.icon.value, 64))
                   else old(e.thumbnail),
      footer := Some(Footer(Some(if info.expiresAt.Some? then author.name + "   Expires on" else author.name),
                            author.avatarUrl)),
      timestamp := if info.expiresAt.Some? then info.expiresAt else old(e.timestamp))
  {
    e.SetTitle(info.guild.name);
    e.SetDescription(ServerDescription(info.guild.description, info.code,
                                       info.approximateMemberCount, info.approximatePresenceCount));
    if info.guild.icon.Some? {
      e.SetThumbnail(Util.GuildIconUrl(info.guild.id, info.guild.icon.value, 64));
    }
    var footer := AuthorFooter(author, info.expiresAt);
    e.SetFooter(footer);
    if info.expiresAt.Some? {
      e.SetTimestamp(info.expiresAt.value);
    }
  }
}
