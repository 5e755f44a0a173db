# Loot-Bot pipeline in Dafny

Loot-Bot is a Discord bot that posts the games given away for free on two
storefronts. Prime Gaming offers are scraped from item cards on a rendered web
page. Epic Games offers come from the store's free-games promotion feed,
which is JSON. Each storefront has its own copy of the same pipeline:

1. decide whether the cached list is fresh enough;
2. fetch and extract a new list when it is not;
3. cache it in a file together with a timestamp;
4. post the list to the chat channel, either as one message with a field per
   game or as one message per game.

This project models that pipeline for both storefronts and proves what it does.

- `common.dfy` holds what the two modules share:
  - `Wrappers`: a `Result` type for exceptions.
  - `PyStr`: Python's `str.find` and slicing.
  - `Discord`: embeds as records, and a `Channel` class whose log records the
    messages still visible in the channel.
  - `Pipeline`: the cache file as a class (`CacheFile`), timestamps as integer
    microseconds, the freshness rule, and `random.randrange`.
- `prime_gaming.dfy` (module `PrimeGaming`) models
  `bot/bot_modules/get_twitch_data.py`.
- `epic_games.dfy` (module `EpicGames`) models
  `bot/bot_modules/get_epic_games_data.py`.

The loops of the source are methods with loop invariants. Each is proved
against a pure specification function: `ExtractAll`, `OffersFrom`,
`MultipleMessages`, `SingleMessage` and `Command`. The properties the source
promises are proved as lemmas about those functions.

`handle_cmd` is `HandleCmd`. It changes the cache object and the channel
object, and its postcondition equates the new cache document, the messages
added to the channel and the outcome with `Command` applied to the old state.

The model keeps the code's quirks, as the code is written:
- The base name is `title[:title.find(":")]`. A title without a colon loses
  its last character, so "Beta" is matched as "Bet". The intended behaviour,
  comparing the whole title, is not what the code does.
- `random.randrange(0, len(images) - 1)` never picks the last image. It raises
  when exactly one entry passes, and then no message is sent.
- The Prime Gaming `fetch_data` saves even an empty list. The Epic
  `fetch_data` saves only a non-empty list.
- In the Epic extraction, a game without an "OfferImageWide" image reuses the
  image of the game kept before it. It is not skipped. When no earlier image
  exists, the lookup fails (`UnboundImage`).
- Only status 400 counts as a failed request.
- A card missing its anchor, its image tag or one of the attributes aborts
  the whole Prime Gaming extraction. The card is not skipped.
- `str(datetime)` leaves out the fraction of a second when it is zero. The
  `strptime` of the age check then raises (`BadTimestamp`).
- If a fetch raises, the "Let me check" notice is never deleted. It stays in
  the channel log.

## Model

| member | source | states |
|---|---|---|
| `PyStr.Find` | bot/bot_modules/get_twitch_data.py:138 | `str.find`: -1 exactly when the character is absent; otherwise the index of its first occurrence |
| `PyStr.Bound` | bot/bot_modules/get_twitch_data.py:138 | definition: a Python slice bound, negative counting from the end, clamped to [0, len] |
| `PyStr.Slice` | bot/bot_modules/get_epic_games_data.py:40-42 | definition: `s[lo:hi]` with both bounds read as Python reads them, empty when they cross |
| `PyStr.Prefix` | bot/bot_modules/get_twitch_data.py:138 | definition: `s[:stop]` |
| `Discord.Channel.Send` | bot/bot_modules/get_twitch_data.py:164 | `channel.send` appends the message to the channel log |
| `Discord.Channel.SendAll` | bot/bot_modules/get_twitch_data.py:134-164 | sending messages in order appends them, in that order, to the log |
| `Discord.Channel.Delete` | bot/bot_modules/get_twitch_data.py:247 | `msg.delete()` of the notice sent last removes it from the log |
| `Pipeline.CacheFile.Save` | bot/bot_modules/get_twitch_data.py:71-88 | the cache document is replaced wholesale by the new timestamp and list (never merged) |
| `Pipeline.CacheFile.Load` | bot/bot_modules/get_twitch_data.py:91-100 | loading returns the document last saved |
| `Pipeline.ReadTimestamp` | bot/bot_modules/get_twitch_data.py:259-262 | parsing the stored timestamp succeeds exactly when its microsecond part is non-zero, and then gives back the stored instant |
| `Pipeline.Freshness` | bot/bot_modules/get_twitch_data.py:243-267 | refetch iff forced, or the cached list is empty, or the timestamp is readable and at least one day old; reuse iff not forced, non-empty, readable and younger than a day |
| `Pipeline.RandRange` | bot/bot_modules/get_twitch_data.py:208 | `randrange(start, stop)` raises exactly when the range is empty, otherwise yields a value in [start, stop) |
| `Pipeline.RandRangeReaches` | bot/bot_modules/get_twitch_data.py:208 | every value of a non-empty range is produced by some draw |
| `PrimeGaming.Attr` | bot/bot_modules/get_twitch_data.py:51-61 | definition: `find(...)[key]`, raising when the tag is missing or lacks the attribute |
| `PrimeGaming.CardLoot` | bot/bot_modules/get_twitch_data.py:50-66 | definition: name, image link and absolute weblink of one card, read in the source's order |
| `PrimeGaming.ExtractAll` | bot/bot_modules/get_twitch_data.py:49-66 | definition: the entries of all cards in order; the first bad card aborts (its properties are `ExtractAllSpec`) |
| `PrimeGaming.ExtractAllSpec` | bot/bot_modules/get_twitch_data.py:49-66 | extraction succeeds iff every card has the anchor with `aria-label` and `href` and the img with `src`; it then yields one entry per card in document order, with weblink = "https://gaming.amazon.com" + href |
| `PrimeGaming.ExtractDataFromHtml` | bot/bot_modules/get_twitch_data.py:40-68 | the card loop returns exactly the extraction result above, or the error of the first bad card |
| `PrimeGaming.BaseName` | bot/bot_modules/get_twitch_data.py:138 | with a colon: the prefix before the first colon; without: the title minus its last character ("" for "") |
| `PrimeGaming.BaseNameAtFirstColon` | bot/bot_modules/get_twitch_data.py:196 | the base name equals `title[..k]` for the index k of the first colon |
| `PrimeGaming.BaseNameWithColon` | bot/bot_modules/get_twitch_data.py:196 | "Alpha: Subtitle" has base name "Alpha" |
| `PrimeGaming.BaseNameWithoutColon` | bot/bot_modules/get_twitch_data.py:138-140 | "Beta" has base name "Bet", so it fails an allow-list containing "Beta" and passes one containing "Bet" |
| `PrimeGaming.Wanted` | bot/bot_modules/get_twitch_data.py:140 | definition: the base name is on the allow-list |
| `PrimeGaming.Passing` | bot/bot_modules/get_twitch_data.py:134-140 | the filtered list is no longer than the input and holds exactly the entries whose base name is on the allow-list |
| `PrimeGaming.PassingConcat` | bot/bot_modules/get_twitch_data.py:134-140 | filtering preserves input order: the filter of a concatenation is the concatenation of the filters |
| `PrimeGaming.PassingAppend` | bot/bot_modules/get_twitch_data.py:192-198 | one more loop iteration appends the entry to the passing list exactly when it is wanted |
| `PrimeGaming.SingleFieldsAppend` | bot/bot_modules/get_twitch_data.py:199-204 | one more passing entry appends one field `**title**` -> link and one image |
| `PrimeGaming.MultipleMessages` | bot/bot_modules/get_twitch_data.py:134-164 | never more messages than entries |
| `PrimeGaming.MultipleMessagesSpec` | bot/bot_modules/get_twitch_data.py:141-164 | one message per passing entry, in order, carrying its title, its link as url and as the "Open in browser" field, and its image |
| `PrimeGaming.SendMessageMultiple` | bot/bot_modules/get_twitch_data.py:126-166 | the loop sends exactly the multi-style messages |
| `PrimeGaming.SingleMessage` | bot/bot_modules/get_twitch_data.py:189-213 | definition: nothing for no passing entry, else one message whose image `randrange(0, n - 1)` picks (its properties are `SingleMessageSpec`) |
| `PrimeGaming.SingleMessageSpec` | bot/bot_modules/get_twitch_data.py:189-213 | no passing entry: nothing sent; one: `randrange` raises; two or more: one message, one bold-title field per passing entry in order, image of an entry at index in [0, n-2] |
| `PrimeGaming.SingleMessageImageReachable` | bot/bot_modules/get_twitch_data.py:207-209 | every passing image except the last can be the one shown |
| `PrimeGaming.SendMessageSingle` | bot/bot_modules/get_twitch_data.py:169-215 | the loop and the random pick send exactly the single-style message(s) or raise |
| `PrimeGaming.Reply` | bot/bot_modules/get_twitch_data.py:269-280 | definition: the no-content notice for an empty list, else the style the message type selects |
| `PrimeGaming.Command` | bot/bot_modules/get_twitch_data.py:218-282 | definition: `handle_cmd` as a function of the old cache, the page, the clock reads and the draw; `HandleCmd` is proved equal to it |
| `PrimeGaming.CommandFetchRule` | bot/bot_modules/get_twitch_data.py:243-267 | a command fetches iff forced, or the cache is empty, or its readable timestamp is at least a day old |
| `PrimeGaming.CommandReusesCache` | bot/bot_modules/get_twitch_data.py:249-267 | without a fetch the cache is unchanged, and a fresh cache's list is what gets formatted |
| `PrimeGaming.CommandOverwritesCache` | bot/bot_modules/get_twitch_data.py:109-123 | a fetch that extracts replaces the cache with the new timestamp and list, even an empty list |
| `PrimeGaming.CommandEmptyFetch` | bot/bot_modules/get_twitch_data.py:103-123 | a fetch that extracts nothing still saves the empty list with the new timestamp, and only the no-content notice is posted |
| `PrimeGaming.CommandReplies` | bot/bot_modules/get_twitch_data.py:243-280 | with the list known (the fresh cache, or the fetched list, which is then saved): empty posts only the no-content notice and completes; type 0 posts the single message or raises its error; type 1 posts one message per passing entry; any other type posts nothing |
| `PrimeGaming.FetchData` | bot/bot_modules/get_twitch_data.py:103-123 | returns the extraction result; on success the cache holds it with the fetch timestamp, even when it is empty; on failure the cache is untouched |
| `PrimeGaming.Refresh` | bot/bot_modules/get_twitch_data.py:245-247 | the notice is sent before the fetch and deleted after it; it stays only if the fetch raises |
| `PrimeGaming.HandleCmd` | bot/bot_modules/get_twitch_data.py:218-282 | the new cache, the messages appended to the channel and the outcome are those of `Command` on the old cache |
| `EpicGames.IsFree` | bot/bot_modules/get_epic_games_data.py:33 | definition: discountPrice is 0 and originalPrice is not |
| `EpicGames.FormatEndDate` | bot/bot_modules/get_epic_games_data.py:40-43 | definition: `raw[8:10] + "." + raw[5:7] + "." + raw[:4]` (its meaning is `FormatEndDateIso`) |
| `EpicGames.EndDateOf` | bot/bot_modules/get_epic_games_data.py:39 | definition: `price.lineOffers[0].appliedRules[0].endDate`, raising on an empty list |
| `EpicGames.FormatEndDateIso` | bot/bot_modules/get_epic_games_data.py:39-43 | for any `YYYY-MM-DD...` date-time the end date reads `DD.MM.YYYY` |
| `EpicGames.FormatEndDateExample` | bot/bot_modules/get_epic_games_data.py:39-43 | "2024-06-01T00:00:00Z" becomes "01.06.2024" |
| `EpicGames.WideIndex` | bot/bot_modules/get_epic_games_data.py:46-49 | the index of the first "OfferImageWide" key image, or -1 iff there is none |
| `EpicGames.ImageFor` | bot/bot_modules/get_epic_games_data.py:45-51 | the image is the first wide image, else the carried value; it is missing only when nothing is carried and no wide image exists |
| `EpicGames.OfferOf` | bot/bot_modules/get_epic_games_data.py:35-51 | definition: the offer of one free game, or the error reading it raises |
| `EpicGames.OffersFrom` | bot/bot_modules/get_epic_games_data.py:32-51 | definition: the game loop with `image` carried across games (its properties are `OffersFromOk`, `OffersFromPerGame`, `OffersFromSpec`) |
| `EpicGames.FetchOffers` | bot/bot_modules/get_epic_games_data.py:20-30 | status 400 yields an empty list without reading the body; any other status with an unreadable body raises |
| `EpicGames.FreeElements` | bot/bot_modules/get_epic_games_data.py:32-33 | kept elements are exactly those with discountPrice == 0 and originalPrice != 0, never more than the input |
| `EpicGames.FreeElementsConcat` | bot/bot_modules/get_epic_games_data.py:32-33 | the filter keeps input order and multiplicity: filtering a concatenation is the concatenation of the filters |
| `EpicGames.OffersFromOk` | bot/bot_modules/get_epic_games_data.py:32-51 | extraction succeeds iff every free game has a first line offer with a first applied rule and the first free game has a wide image or one carried in |
| `EpicGames.OffersFromPerGame` | bot/bot_modules/get_epic_games_data.py:32-51 | a successful extraction is one offer per free game, in input order, each read with the image the previous offer left |
| `EpicGames.OffersFromSpec` | bot/bot_modules/get_epic_games_data.py:35-51 | each offer has its game's title, the reformatted first end date, and its first wide image or else the previous offer's image |
| `EpicGames.FirstOfferNeedsWideImage` | bot/bot_modules/get_epic_games_data.py:46-51 | if the first free game has no wide image and none was seen earlier, extraction fails |
| `EpicGames.FetchOffersKeepsFree` | bot/bot_modules/get_epic_games_data.py:24-51 | a readable response other than 400 yields as many offers as free elements, at most the element count, titles in order |
| `EpicGames.FetchDataEpic` | bot/bot_modules/get_epic_games_data.py:8-53 | the nested loops, with `image` carried across games, compute exactly the extraction result |
| `EpicGames.MultipleMessages` | bot/bot_modules/get_epic_games_data.py:115-142 | one message per offer, in order, none filtered: field title -> "Free until " + end date, image = the offer's image |
| `EpicGames.SendMessageMultiple` | bot/bot_modules/get_epic_games_data.py:108-144 | the loop sends exactly those messages |
| `EpicGames.SingleMessage` | bot/bot_modules/get_epic_games_data.py:166-185 | definition: nothing for an empty list, else one message whose image `randrange(0, n - 1)` picks (its properties are `SingleMessageSpec`) |
| `EpicGames.SingleMessageSpec` | bot/bot_modules/get_epic_games_data.py:166-185 | empty list: nothing sent; one offer: `randrange` raises; otherwise one message with a bold-title field per offer in order and the image of an offer at index in [0, n-2] |
| `EpicGames.SingleMessageImageReachable` | bot/bot_modules/get_epic_games_data.py:179-181 | every image but the last can be the one shown |
| `EpicGames.SendMessageSingle` | bot/bot_modules/get_epic_games_data.py:147-187 | the loop and the random pick send exactly the single-style message(s) or raise |
| `EpicGames.Reply` | bot/bot_modules/get_epic_games_data.py:240-251 | definition: the no-content notice for an empty list, else the style the message type selects |
| `EpicGames.AfterFetch` | bot/bot_modules/get_epic_games_data.py:95-97 | definition: the cache is replaced only by a non-empty list |
| `EpicGames.Command` | bot/bot_modules/get_epic_games_data.py:190-253 | definition: `handle_cmd` as a function of the old cache, the response, the clock reads and the draw; `HandleCmd` is proved equal to it |
| `EpicGames.CommandFetchRule` | bot/bot_modules/get_epic_games_data.py:214-238 | a command fetches iff forced, or the cache is empty, or its readable timestamp is at least a day old |
| `EpicGames.CommandReusesCache` | bot/bot_modules/get_epic_games_data.py:220-238 | without a fetch the cache is unchanged, and a fresh cache's list is what gets formatted |
| `EpicGames.CommandEmptyFetch` | bot/bot_modules/get_epic_games_data.py:93-105 | a fetch yielding nothing (status 400 included) leaves the cache as it was and sends only the no-content notice |
| `EpicGames.CommandReplacesCache` | bot/bot_modules/get_epic_games_data.py:95-97 | a fetch with offers replaces the cache with the new timestamp and list |
| `EpicGames.CommandReplies` | bot/bot_modules/get_epic_games_data.py:214-251 | with the list known (the fresh cache, or the fetched list, saved only when non-empty): empty posts only the no-content notice and completes; type 0 posts the single message or raises its error; type 1 posts one message per offer; any other type posts nothing |
| `EpicGames.FetchData` | bot/bot_modules/get_epic_games_data.py:88-105 | returns the fetched list; saves only a non-empty one; on failure the cache is untouched |
| `EpicGames.Refresh` | bot/bot_modules/get_epic_games_data.py:216-218 | the notice is deleted after a fetch that returns and stays after one that raises |
| `EpicGames.HandleCmd` | bot/bot_modules/get_epic_games_data.py:190-253 | the new cache, the messages appended and the outcome are those of `Command` on the old cache |

## Left out

- Headless browser start-up, the 3-second wait and the HTML parsing (`get_html_data`): the page is given as the sequence of `item-card__action` cards. Each card holds the result of the two `find` calls as optional tags with attribute maps.
- `requests.get` and JSON decoding: the response is a status plus the element list. A body that is not JSON, or one that lacks the `data.Catalog.searchStore.elements` path, is a single error (`BodyNotJson`). Inside an element, the keys `title`, `price.totalPrice` (with `discountPrice` and `originalPrice`), `price.lineOffers`, each line offer's `appliedRules`, each applied rule's `endDate`, `keyImages` and each image's `type`/`url` are assumed present; a missing one would raise `KeyError` in the source. Empty `lineOffers` and `appliedRules` lists are modelled (`IndexOutOfRange`).
- `EpicGames.FetchOffersKeepsFree`: states titles only; the end date and image of each offer are stated by `EpicGames.OffersFromSpec`.
- Discord transport: async/await, embed colours, how Discord lays the fields out and the bot's own-message check are not modelled. Each field keeps its `inline` flag, which the source always sets to `False`. The thumbnail is kept as a plain field of the embed.
- `datetime.now()`: every clock read is a parameter in microseconds. `now` is the read at the age check; `fetchTime` is the read when a fetch saves. The dictionary that `fetch_data` returns carries a second clock read as its timestamp; `handle_cmd` reads only its list, so both `FetchData` methods return just the list.
- `random.randrange`: the generator's draw is a parameter. No claim is made about the distribution.
- File I/O: the cache file is an object field. A missing file (`FileNotFoundError` on first use), JSON serialisation (tuples read back as lists) and concurrent writers are not modelled.
- `print` calls: logging only.
- bot/discord_bot.py: client lifecycle, presence, YAML configuration and the token check. Its two string comparisons choose the `fetch` flag, which the model takes as an input.
