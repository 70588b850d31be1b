# mio-bot command logic in Dafny

A model of the parts of the mio-bot Discord bot that make decisions rather
than talk to the network. Each Dafny module models one source file's core:

- `Translate`: the language-alias table (`validate_unit`). It also covers how
  `translate` reads its arguments: `<target> <text>` or
  `<source> <target> <text>`, with the second token put back when it is not a
  language.
- `Tldr`: the platform choice by token count and the walk over the platform
  page and then the common page. A 404 moves on, a 200 answers and anything
  else is an error. Also the markdown split into a title line and a
  description.
- `ServerList`: the moderation `serverlist sort`. It keeps the bot's embed
  messages, stable-sorts their first embeds by title and hands them out from
  the end. Also the server embed built from an invite.
- `ManageServerList`: the manage `add_server` embed.
- `Nhentai`: the cover URL, the extension code, the tag filter, the tag list
  formatting and the grouped tag string.
- `Weather`: wind direction, icon emoji, first-letter upper-casing, the icon
  image URL, the key and empty-search guards, and the forecast embed built
  from every day but the first.
- `Util`: the guild icon URL.
- `Checks`: the NSFW, Admin and Moderator checks as decisions over the facts
  they fetch.
- `Boosts`: the member filter and the entry concatenation of both boost
  listings.

Some modules model what the handlers get from their libraries:

- `Arguments`: the framework's argument cursor, as tokens plus an offset.
- `Embeds`: the embed builder. Its setters update the builder in place.
- `Text`: `join`, `lines`, decimal formatting and ASCII case mapping.
- `Wrappers`: Option and Result.

Some inputs become plain values:

- An HTTP GET becomes a function parameter from URL to response (status and
  body).
- The member stream, the channel's messages, the invite lookup's answer and
  the environment variable are plain inputs.
- Dates already formatted by chrono are opaque strings.

Integers are unbounded; the `u16` and `u32` fields keep their ranges as
subset types.

## Model

| member | source | states |
|---|---|---|
| Text.JoinStartsWithHead | src/commands/nsfw/nhentai.rs:141-146 | A join of at least one part starts with the first part. |
| Text.JoinEmptyIff | src/commands/web/tldr.rs:112 | Joining non-empty parts gives "" exactly when there are no parts. |
| Text.LowerAscii | src/commands/misc/translate.rs:100 | `to_ascii_lowercase` keeps the length and maps only 'A'..'Z' to lower case, character by character. |
| Text.LowerAsciiIdempotent | src/commands/misc/translate.rs:100 | Lower-casing twice is the same as once. |
| Text.DigitChar | src/core/checks.rs:63 | A digit value below ten maps to a character '0'..'9'. |
| Text.NatToDecimal | src/core/checks.rs:63 | `to_string` of an unsigned integer is non-empty, all digits, and has no leading zero. |
| Text.DecimalRoundTrip | src/core/checks.rs:63 | Reading the decimal text back gives the number. |
| Text.DecimalInjective | src/core/checks.rs:63 | Two numbers with the same decimal text are equal. |
| Text.NewlineIndex | src/commands/web/tldr.rs:106 | The first line break: no '\n' before it, and a '\n' at it unless it is the end. |
| Text.Lines | src/commands/web/tldr.rs:106 | `str::lines` gives no lines exactly for the empty text. |
| Text.LinesHaveNoNewline | src/commands/web/tldr.rs:106 | No line holds a '\n'. |
| Text.LinesJoinRoundTrip | src/commands/web/tldr.rs:106-112 | With '\n' endings and no final line ending, joining the lines with "\n" gives the text back. |
| Arguments.Args.constructor | src/commands/misc/translate.rs:16 | A fresh cursor stands before the first token, and nothing can be rewound. |
| Arguments.Args.Single | src/commands/misc/translate.rs:17-18 | Consumes and returns the next token, or returns None at the end without moving. |
| Arguments.Args.Rewind | src/commands/misc/translate.rs:42 | Moves back one token right after a read; otherwise nothing moves. |
| Arguments.Args.IsEmpty | src/commands/misc/translate.rs:48 | True exactly when no token remains. |
| Arguments.Args.Len | src/commands/web/tldr.rs:24 | The number of tokens not yet consumed. |
| Arguments.Args.Rest | src/commands/misc/translate.rs:54 | The remaining tokens joined by spaces; "" exactly when none remain. |
| Embeds.EmbedBuilder.constructor | src/commands/moderation/serverlist.rs:49 | A new embed has nothing set. |
| Embeds.EmbedBuilder.SetTitle | src/commands/moderation/serverlist.rs:107 | Sets the title; every other part is unchanged. |
| Embeds.EmbedBuilder.SetDescription | src/commands/moderation/serverlist.rs:108-116 | Sets the description; every other part is unchanged. |
| Embeds.EmbedBuilder.SetThumbnail | src/commands/moderation/serverlist.rs:118-120 | Sets the thumbnail; every other part is unchanged. |
| Embeds.EmbedBuilder.SetFooter | src/commands/moderation/serverlist.rs:122-134 | Sets the footer; every other part is unchanged. |
| Embeds.EmbedBuilder.SetTimestamp | src/commands/moderation/serverlist.rs:136-138 | Sets the timestamp; every other part is unchanged. |
| Embeds.EmbedBuilder.AddField | src/commands/web/weather.rs:138-153 | Appends one field after the existing ones; every other part is unchanged. |
| Translate.ValidateUnit | src/commands/misc/translate.rs:99-113 | The result is one of the eight language codes. It is present exactly when the lower-cased input is in the alias table, so every input outside the table gives None. |
| Translate.ValidateUnitAgreesWithAliases | src/commands/misc/translate.rs:100-111 | A returned code is the alias table's entry for the lower-cased input. |
| Translate.ValidateUnitCaseInsensitive | src/commands/misc/translate.rs:100-102 | Any ASCII casing of an alias gives the same answer as its lower-case form. |
| Translate.ValidateUnitIdempotent | src/commands/misc/translate.rs:103-110 | Every returned code validates to itself. |
| Translate.ResolveTranslateArgs | src/commands/misc/translate.rs:16-54 | An invalid first token gives the first-argument error. Two languages make source = first and target = second, and the text is the tokens after them, or the missing-text error when there are none. One language gives source "auto", and the text starts with the rewound second token. |
| Tldr.ResolvePlatform | src/commands/web/tldr.rs:21-39 | Succeeds exactly for one or two tokens; any other count fails with "Invalid number of arguments". The search is the last token. The platform is the first of two tokens when it is linux, windows or macos, and linux otherwise. |
| Tldr.PageUrl | src/commands/web/tldr.rs:41-48 | A page address is the tldr pages root, then exactly the directory, "/", the search and ".md". |
| Tldr.CandidateUrls | src/commands/web/tldr.rs:40-49 | Exactly two candidates, in order: the platform's page, then the common page. |
| Tldr.PlatformPageIsNotCommon | src/commands/web/tldr.rs:40-49 | For linux, windows and macos the two candidates are different pages. |
| Tldr.FirstNon404 | src/commands/web/tldr.rs:53-58 | Every candidate before the returned index answered 404, and the one at it did not. |
| Tldr.FirstNon404Unique | src/commands/web/tldr.rs:53-58 | Any index with only 404s before it and a non-404 at it (or the end) is the one the walk stops at. |
| Tldr.TrimHeading | src/commands/web/tldr.rs:111 | The result is a suffix of the line, every removed character is ' ' or '#', and the result does not start with either. |
| Tldr.ContentFromMarkdown | src/commands/web/tldr.rs:105-116 | None exactly for a body with no lines. Otherwise the title is the trimmed first line and the description is the other lines joined by "\n". |
| Tldr.MarkdownSplitRoundTrip | src/commands/web/tldr.rs:105-116 | With '\n' endings, the first line, a '\n' and the description rebuild the body. A one-line body has an empty description. |
| Tldr.FetchPage | src/commands/web/tldr.rs:53-102 | The outcome is fixed by the first non-404 candidate: 200 with a body gives the embed; 200 with no lines gives the parse error; another status gives "Unexpected response status: <code>". All 404 gives the "Could not find a tl:dr page" reply, and the result is Ok. |
| Tldr.Tldr | src/commands/web/tldr.rs:20-103 | A wrong token count gives the count error. Otherwise the reply is that fallback outcome over the platform page and then the common page. |
| Tldr.CommonPageFallback | src/commands/web/tldr.rs:41-58 | A page missing for the platform but present in common is answered from the common page. |
| Weather.FormatDirection | src/commands/web/weather.rs:196-205 | Always one of the four directions, never "": North for ≤45 or >315, East for (45,135], South for (135,225], West for (225,315], each as an if-and-only-if. |
| Weather.WeatherEmoji | src/commands/web/weather.rs:167-182 | The result is one of the eight emoji, and it is the full moon exactly for "01n". |
| Weather.DayNightSameEmoji | src/commands/web/weather.rs:171-178 | The day and night forms of the codes 02 to 50 show the same emoji. |
| Weather.UnknownCodeIsSun | src/commands/web/weather.rs:169-179 | An unlisted code shows the same sun as "01d". |
| Weather.UppercaseFirst | src/commands/web/weather.rs:184-186 | Same length. The first character is upper-cased and actually changes when it is a lower-case letter. The rest is unchanged. |
| Weather.UppercaseFirstIdempotent | src/commands/web/weather.rs:184-186 | Upper-casing the first letter twice is the same as once. |
| Weather.WeatherImageUrl | src/commands/web/weather.rs:163-165 | The URL is the fixed prefix, then exactly the code, then the fixed suffix. |
| Weather.WeatherImageUrlInjective | src/commands/web/weather.rs:163-165 | Different codes give different image URLs. |
| Weather.WeatherQuery | src/commands/web/weather.rs:20-39 | No API key gives the key error. An empty search gives the city-name error before any request. Otherwise the result is the key and the tokens joined by spaces. |
| Weather.ForecastFieldLayout | src/commands/web/weather.rs:138-153 | A forecast field is named by its date and is inline. Its text opens with the day's emoji, " **" and the capitalised description, and closes with the decimal humidity and "%". |
| Weather.ForecastFields | src/commands/web/weather.rs:137-154 | One field per day. |
| Weather.ForecastFieldsAt | src/commands/web/weather.rs:137-154 | Field i is day i's field (date, emoji and description, temperature, humidity), and it is inline. |
| Weather.ForecastFieldsSnoc | src/commands/web/weather.rs:137-154 | One more day adds its field after the earlier days' fields. |
| Weather.AddForecastFields | src/commands/web/weather.rs:137-154 | The loop appends the days' fields after the existing fields, in day order. Nothing else changes. |
| Weather.BuildForecast | src/commands/web/weather.rs:130-158 | Sets the title "Forecast for <search>" and appends the fields of every day after the first, in order. Nothing else changes. |
| Util.GuildIconUrl | src/core/util.rs:1-13 | The URL is base + guild + "/" + icon + "." + ext + "?size=" + decimal size; ext is gif for "a_" icons and webp otherwise. |
| Util.UrlTail | src/core/util.rs:1-13 | After the icon id, the URL is ".", the extension, "?size=" and the decimal size. |
| Util.ExtensionDependsOnlyOnPrefix | src/core/util.rs:2 | Two icons with the same "a_"-ness get identical URL tails after the icon id. |
| Checks.NsfwCheck | src/core/checks.rs:15-20 | Passes exactly in an nsfw channel; otherwise fails with the nsfw reason. |
| Checks.AdminCheck | src/core/checks.rs:37-42 | Passes exactly when the administrator bit is set; otherwise fails with the administrator reason. |
| Checks.ModCheck | src/core/checks.rs:56-69 | Passes whenever the admin check passes. Every failure carries the moderator reason. |
| Checks.ModeratorRoleTextIsId | src/core/checks.rs:63 | The compared text is the decimal form of the role id 134040353517862912. |
| Checks.ModCheckForNonAdmin | src/core/checks.rs:56-69 | For a non-administrator, passes exactly when the role ids contain the moderator role. |
| Checks.ModCheckWeakerThanAdmin | src/core/checks.rs:56-69 | A moderator-check failure implies an admin-check failure. |
| Nhentai.ParseExtension | src/commands/nsfw/nhentai.rs:89-97 | "j", "p" and "g" give jpg, png and gif, whose first letter is the code. Everything else gives "". |
| Nhentai.CoverUrl | src/commands/nsfw/nhentai.rs:80-87 | The gallery base, the media id and "/cover.", followed by exactly the parsed extension. |
| Nhentai.FilterTagsByType | src/commands/nsfw/nhentai.rs:137-139 | Keeps only tags of the asked type, never more tags than given. |
| Nhentai.FilterAppend | src/commands/nsfw/nhentai.rs:137-139 | Filtering keeps the input order: it distributes over concatenation. |
| Nhentai.FilterCounts | src/commands/nsfw/nhentai.rs:137-139 | A tag occurs in its own type's filter as often as in the input, and in no other type's filter. |
| Nhentai.ByTypeCount | src/commands/nsfw/nhentai.rs:100-106 | Summed over the seven filters, each tag value occurs as often as in the input. |
| Nhentai.TypesPartitionTags | src/commands/nsfw/nhentai.rs:100-106 | The seven filters together hold every input tag exactly as often as the input. |
| Nhentai.QuotedNames | src/commands/nsfw/nhentai.rs:142-144 | One non-empty backticked name per tag, in order. |
| Nhentai.FormatTagItems | src/commands/nsfw/nhentai.rs:141-146 | The list is "" exactly for no tags. |
| Nhentai.FormatTagItemsHead | src/commands/nsfw/nhentai.rs:141-146 | The list opens with the first backticked name, and is just that name for one tag. |
| Nhentai.Section | src/commands/nsfw/nhentai.rs:110-132 | A category line is "" exactly when the category is empty. |
| Nhentai.SectionStartsWithHeading | src/commands/nsfw/nhentai.rs:110-132 | A non-empty category's line opens with "\n <Label>: ". |
| Nhentai.AppendSectionsExtends | src/commands/nsfw/nhentai.rs:108-134 | Appending category lines keeps what was already written as a prefix. |
| Nhentai.AppendSectionsEmpty | src/commands/nsfw/nhentai.rs:108-134 | With every category empty, nothing is appended. |
| Nhentai.AppendIfNonEmpty | src/commands/nsfw/nhentai.rs:110-112 | Appends the category line, which is nothing for an empty category. |
| Nhentai.AppendSectionsInOrder | src/commands/nsfw/nhentai.rs:110-132 | The category lines follow in the fixed order Parodies, Characters, Artists, Groups, Languages, Categories. |
| Nhentai.BuildTagString | src/commands/nsfw/nhentai.rs:99-135 | The plain-tag list and "\n", then each category's line in that fixed order. |
| Nhentai.TagStringStartsWithPlainTags | src/commands/nsfw/nhentai.rs:108 | The tag string always opens with the plain-tag list and "\n", even with no plain tags. |
| ServerList.ServerMessages | src/commands/moderation/serverlist.rs:66-72 | Never more messages than the channel holds, and every kept message was written by the bot and has an embed. |
| ServerList.ServerMessagesMembership | src/commands/moderation/serverlist.rs:66-72 | A message is kept exactly when it is in the channel, the bot wrote it and it has an embed. |
| ServerList.ServerMessagesAppend | src/commands/moderation/serverlist.rs:66-72 | The filter keeps channel order: it distributes over concatenation. |
| ServerList.FirstEmbeds | src/commands/moderation/serverlist.rs:74 | One embed per kept message, in order: message i's first embed. |
| ServerList.SortKey | src/commands/moderation/serverlist.rs:76 | The sort key is the title, or "" for an untitled embed. |
| ServerList.MissingTitleSortsFirst | src/commands/moderation/serverlist.rs:76 | An untitled embed sorts before, or level with, every other embed. |
| ServerList.LexLeReflexive | src/commands/moderation/serverlist.rs:76 | Every title is ordered before or equal to itself. |
| ServerList.LexLeTotal | src/commands/moderation/serverlist.rs:76 | Any two titles are ordered one way or the other. |
| ServerList.LexLeTransitive | src/commands/moderation/serverlist.rs:76 | The title order is transitive. |
| ServerList.Insert | src/commands/moderation/serverlist.rs:76 | Inserting adds exactly one embed. |
| ServerList.SortByTitle | src/commands/moderation/serverlist.rs:76 | Sorting keeps the number of embeds. |
| ServerList.InsertPermutes | src/commands/moderation/serverlist.rs:76 | Inserting adds the embed and loses none. |
| ServerList.InsertKeepsLowerBound | src/commands/moderation/serverlist.rs:76 | Inserting an embed whose title is not below a bound into embeds whose titles are not below it keeps every title at or above the bound. |
| ServerList.InsertSorted | src/commands/moderation/serverlist.rs:76 | Inserting into a title-sorted list keeps it sorted. |
| ServerList.SortByTitleCorrect | src/commands/moderation/serverlist.rs:74-76 | The result is ordered by title (missing title as "") and is a permutation of the input. |
| ServerList.WithKeyCons | src/commands/moderation/serverlist.rs:76 | The embeds with one title, taken from a list with an embed in front, are that embed (when its title matches) followed by the rest's. |
| ServerList.InsertWithKey | src/commands/moderation/serverlist.rs:76 | Inserting puts the new embed before every embed with the same title. |
| ServerList.SortByTitleStable | src/commands/moderation/serverlist.rs:76 | The sort is stable: embeds with equal titles keep their relative order. |
| ServerList.PoppedInDescendingOrder | src/commands/moderation/serverlist.rs:78-81 | Handing out a sorted list from its end gives non-increasing titles. |
| ServerList.AssignFromEnd | src/commands/moderation/serverlist.rs:78-81 | Message i gets the embed at n-1-i, `pop` never meets an empty list, and the embeds handed out are a permutation of the sorted ones. |
| ServerList.SortServers | src/commands/moderation/serverlist.rs:61-83 | One edit per kept message, in channel order. Message i gets the i-th largest title, so the titles are non-increasing. The edited embeds are a permutation of the kept messages' first embeds. |
| ServerList.ServerDescription | src/commands/moderation/serverlist.rs:108-116 | The description opens with the guild description (or ""), a line break, the invite link and a blank line. |
| ServerList.ServerDescriptionParts | src/commands/moderation/serverlist.rs:108-116 | The description is that opening, the decimal member count, then "** Members, **", the decimal online count and "** Online". |
| ServerList.ServerDescriptionInjective | src/commands/moderation/serverlist.rs:108-116 | For one guild description and invite, equal descriptions mean equal member and online counts. |
| Text.NonDigitIndexAfterDigits | src/commands/moderation/serverlist.rs:114-115 | In digits followed by a non-digit, the first non-digit stands right after the digits. |
| Text.DigitsThenNonDigit | src/commands/moderation/serverlist.rs:114-115 | Text written as digits and then something opening with a non-digit splits in only one way. |
| ServerList.AuthorFooter | src/commands/moderation/serverlist.rs:122-134 | The footer text carries "   Expires on" exactly when the invite expires. The icon is the author's avatar when there is one. |
| ServerList.CreateServerEmbed | src/commands/moderation/serverlist.rs:101-141 | Title: the guild name. Description: guild description (or ""), invite link, member and online counts. Thumbnail: `guild_icon_url(id, icon, 64)`, set exactly when there is an icon. Footer: the author's. Timestamp: set exactly when the invite expires. |
| ManageServerList.GifThumbnail | src/commands/manage/serverlist.rs:54-57 | The icon base, the guild id, "/", the icon id, then exactly ".gif?size=64". |
| ManageServerList.GifThumbnailMatchesIconUrl | src/commands/manage/serverlist.rs:53-58 | The fixed gif thumbnail equals `guild_icon_url(…, 64)` exactly for "a_" icons. |
| ManageServerList.AddServer | src/commands/manage/serverlist.rs:39-81 | The same title, description layout, footer and timestamp as the moderation embed, with two differences in what the builder models: the link uses the invite id from the command text, and the thumbnail is always the gif address. The third difference, the colour that only the moderation embed sets, is outside the builder model. |
| Boosts.BoostingMembers | src/commands/moderation/boosts.rs:18-28 | Never more boosters than stream items. |
| Boosts.BoostingMembersMembership | src/commands/moderation/boosts.rs:22-28 | A booster is collected exactly when a fetched stream item is that member with that boost date. |
| Boosts.BoostingMembersAppend | src/commands/moderation/boosts.rs:22-28 | Collection keeps stream order: it distributes over concatenation. |
| Boosts.Entry | src/commands/moderation/boosts.rs:36-41 | An entry is "**", the member's name and "#", then exactly the decimal discriminator, "** - " and the boost date; it opens with "**" and is at least nine characters long. |
| Boosts.Description | src/commands/moderation/boosts.rs:31-45 | The description is "" exactly when there are no boosters. |
| Boosts.DescriptionAppend | src/commands/moderation/boosts.rs:31-45 | The entries are concatenated with no separator: the description distributes over concatenation. |
| Boosts.EntryInDescription | src/commands/moderation/boosts.rs:31-45 | Each entry sits right after the entries before it and before those after it. |
| Boosts.CollectBoosting | src/commands/manage/boosts.rs:14-24 | The `while let` loop of both listings collects exactly the boosters of the stream. |
| Boosts.JoinEntries | src/commands/manage/boosts.rs:27-41 | The `push_str` fold of both listings gives the description. |
| Boosts.ModerationBoosts | src/commands/moderation/boosts.rs:17-68 | Always Ok. With boosters, one embed titled "Members boosting this server" with the description. Without, the error "Couldn't find any members boosting this server". |
| Boosts.ManageListBoosts | src/commands/manage/boosts.rs:13-63 | Always Ok. With boosters, the same embed. Without, the plain text "Couldn't find any members boosting this server!". |
| Boosts.NoBoostersIff | src/commands/moderation/boosts.rs:22-30 | No booster is collected exactly when no fetched member has a boost date. |

## Left out

- Network, Discord and environment I/O:
  - HTTP requests and JSON decoding (reqwest, serde);
  - message sends, edits and deletes;
  - the member, role, permission and channel fetches;
  - reading `OPEN_WEATHER_MAP_TOKEN`.

  Their results are inputs or a GET function parameter.
- Panics on failed fetches (`unwrap`, `expect`) are not modelled; the fetched values are inputs.
- The embed colour: `create_server_embed` sets `MAIN_COLOR` (src/commands/moderation/serverlist.rs:106), which is defined in src/core/constants.rs, not part of this model. The manage `add_server` embed sets no colour (src/commands/manage/serverlist.rs:43). The builder carries no colour, so this difference between the two embeds is not modelled.
- The serenity framework: command dispatch, prefix matching, help, and how `Args` splits a message into tokens. `Arguments.Args` only models the cursor over already-split, non-empty tokens.
- The framework's `Args` implementation is not part of this model. Three behaviours of `Arguments.Args` are this model's choices: a second `rewind` does nothing; `len` counts the remaining tokens; `rest` re-joins the remaining tokens with single spaces. A `rest` that returned the raw remainder would keep runs of spaces in a translate text or a weather search, and this model collapses them.
- `#[min_args(1)]` on `tldr` and `weather` (src/commands/web/tldr.rs:19, src/commands/web/weather.rs:19): the framework rejects a message with no arguments before either handler runs. `Tldr.Tldr` and `Weather.WeatherQuery` still model the handlers' own zero-token branches, which dispatch never reaches. Argument-count enforcement by the framework is not modelled.
- The translate request itself and the fold over its JSON answer (src/commands/misc/translate.rs:55-94). `ResolveTranslateArgs` stops at the request it would send.
- Translate.ResolveTranslateArgs: requires at least two tokens, because the source panics on `unwrap` with fewer.
- The current-weather embed (src/commands/web/weather.rs:41-128) is left out: it is floating-point temperatures, wind and chrono times.
- The forecast temperature is `{:.0}` of an `f64` (src/commands/web/weather.rs:145,149). `Weather.DailyWeather` takes it as text that is already rounded, so the rounding is not modelled.
- `format_timestamp` is left out: forecast dates and boost dates are opaque strings.
- Weather.UppercaseFirst: requires a non-empty text with an ASCII first character, because the source slices one byte and panics otherwise.
- Weather.BuildForecast: requires at least one day, and a first condition with a non-empty ASCII-initial description for every day shown, because the source indexes `daily[1..]` and `weather[0]`.
- The nhentai handler: the id regex, the per-id requests and the stats field (src/commands/nsfw/nhentai.rs:27-78). Only the helpers it calls are modelled.
- The invite regexes. The moderation `add_server` glue (src/commands/moderation/serverlist.rs:34-54) only wires the regex and the lookup to `create_server_embed`, which is modelled. The manage `add_server` takes the invite id as an input.
- `join_all` runs the edits concurrently; the model lists the edits in order.
- `sort_by_cached_key` is modelled by a stable insertion sort. The result is the same, but the caching and the algorithm are not modelled.
- The boost member stream is a finite sequence of fetch results; asynchronous delivery is not modelled.
