// The Prime Gaming storefront (bot/bot_modules/get_twitch_data.py): item
// cards scraped from the rendered home page, an allow-list of game names, a
// cache file, and two ways of posting the loot to the channel.

module PrimeGaming {
  import opened Wrappers
  import opened PyStr
  import opened Discord
  import opened Pipeline

  const Origin := "https://gaming.amazon.com"
  const HomePage := "https://gaming.amazon.com/home"
  const Favicon := "https://d2u4zldaqlyj2w.cloudfront.net/ba8810e8-f985-43bc-a889-8ba2b0dfea48/favicon.ico"
  const SingleTitle := "Now free on prime gaming"
  const OpenInBrowser := "**Open in browser**"

  /** An HTML tag found inside a card: its attributes by name. */
  datatype Tag = Tag(attrs: map<string, string>)

  /** One `div.item-card__action` of the page: what `find` gave for its link
      anchor and for its `img.tw-image` (None when there is no such tag). */
  datatype ItemCard = ItemCard(anchor: Option<Tag>, img: Option<Tag>)

  /** One loot entry: game name, image link, absolute web link. */
  datatype Loot = Loot(name: string, image: string, weblink: string)

  /** `tag[key]` on the result of a `find`. */
  function Attr(tag: Option<Tag>, key: string): Result<string, Error> {
    match tag
    case None => Err(TagNotFound)
    case Some(t) => if key in t.attrs then Ok(t.attrs[key]) else Err(MissingAttribute)
  }

  /** A card that carries every tag and attribute the extraction reads. */
  predicate Complete(c: ItemCard) {
    && c.anchor.Some? && c.img.Some?
    && "aria-label" in c.anchor.value.attrs
    && "href" in c.anchor.value.attrs
    && "src" in c.img.value.attrs
  }

  /** The loot of one card, read in the order the source reads it. */
  function CardLoot(c: ItemCard): Result<Loot, Error> {
    var name :- Attr(c.anchor, "aria-label");
    var image :- Attr(c.img, "src");
    var href :- Attr(c.anchor, "href");
    Ok(Loot(name, image, Origin + href))
  }

  /** The loot of every card in document order; the first bad card aborts. */
  function ExtractAll(cards: seq<ItemCard>): Result<seq<Loot>, Error> {
    if |cards| == 0 then Ok([])
    else
      var first :- CardLoot(cards[0]);
      var rest :- ExtractAll(cards[1..]);
      Ok([first] + rest)
  }

  /** Extraction succeeds exactly when every card is complete, and then gives
      one entry per card, in order, with the link made absolute. */
  lemma {:induction false} ExtractAllSpec(cards: seq<ItemCard>)
    ensures ExtractAll(cards).Ok? <==> forall i :: 0 <= i < |cards| ==> Complete(cards[i])
    ensures ExtractAll(cards).Ok? ==>
      var data := ExtractAll(cards).value;
      && |data| == |cards|
      && forall i :: 0 <= i < |cards| ==>
        && data[i].name == cards[i].anchor.value.attrs["aria-label"]
        && data[i].image == cards[i].img.value.attrs["src"]
        && data[i].weblink == Origin + cards[i].anchor.value.attrs["href"]
  {
    if |cards| > 0 {
      ExtractAllSpec(cards[1..]);
      assert forall i :: 1 <= i < |cards| ==> cards[i] == cards[1..][i - 1];
    }
  }

  /** `extract_data_from_html`. */
  method ExtractDataFromHtml(cards: seq<ItemCard>) returns (r: Result<seq<Loot>, Error>)
    ensures r == ExtractAll(cards)
  {
    var data: seq<Loot> := [];
    var i := 0;
    ExtendNothing(ExtractAll(cards));
    while i < |cards|
      invariant 0 <= i <= |cards|
      invariant ExtractAll(cards) == Extend(data, ExtractAll(cards[i..]))
    {
      var card := cards[i];
      assert cards[i..][1..] == cards[i + 1..];
      var name :- Attr(card.anchor, "aria-label");
      var image :- Attr(card.img, "src");
      var href :- Attr(card.anchor, "href");
      var loot := Loot(name, image, Origin + href);
      assert ExtractAll(cards[i..]) == Extend([loot], ExtractAll(cards[i + 1..]));
      ExtendTwice(data, [loot], ExtractAll(cards[i + 1..]));
      data := data + [loot];
      i := i + 1;
    }
    assert cards[i..] == [];
    assert data + [] == data;
    return Ok(data);
  }

  /** `title[:title.find(":")]`: the game name before the first colon. With
      no colon `find` gives -1, so the last character is cut off. */
  function BaseName(title: string): (r: string)
    ensures ':' in title ==> |r| < |title| && r == title[..|r|] && title[|r|] == ':' && ':' !in r
    ensures ':' !in title ==> r == title[..if |title| == 0 then 0 else |title| - 1]
  {
    Prefix(title, Find(title, ':'))
  }

  /** The base name is exactly the part of the title before its first colon. */
  lemma BaseNameAtFirstColon(title: string, k: int)
    requires 0 <= k < |title| && title[k] == ':' && ':' !in title[..k]
    ensures BaseName(title) == title[..k]
  {
  }

  lemma BaseNameWithColon()
    ensures BaseName("Alpha: Subtitle") == "Alpha"
  {
    var t := "Alpha: Subtitle";
    assert t[..5] == "Alpha";
    BaseNameAtFirstColon(t, 5);
  }

  /** Without a colon the last character is dropped, so "Beta" is compared as "Bet". */
  lemma BaseNameWithoutColon()
    ensures BaseName("Beta") == "Bet"
    ensures !Wanted("Beta", ["Beta"]) && Wanted("Beta", ["Bet"])
  {
    assert ':' !in "Beta";
  }

  /** An entry is posted when its base name is on the allow-list. */
  predicate Wanted(title: string, games: seq<string>) {
    BaseName(title) in games
  }

  /** The entries that pass the allow-list, in input order. */
  function Passing(data: seq<Loot>, games: seq<string>): (r: seq<Loot>)
    ensures |r| <= |data|
    ensures forall x :: x in r <==> x in data && Wanted(x.name, games)
  {
    if |data| == 0 then []
    else
      var last := data[|data| - 1];
      assert data == data[..|data| - 1] + [last];
      Passing(data[..|data| - 1], games) + (if Wanted(last.name, games) then [last] else [])
  }

  /** Filtering a concatenation filters each part and keeps them in order. */
  lemma {:induction false} PassingConcat(a: seq<Loot>, b: seq<Loot>, games: seq<string>)
    ensures Passing(a + b, games) == Passing(a, games) + Passing(b, games)
  {
    if |b| > 0 {
      var last := b[|b| - 1];
      assert (a + b)[..|a + b| - 1] == a + b[..|b| - 1];
      PassingConcat(a, b[..|b| - 1], games);
    } else {
      assert a + b == a;
    }
  }

  /** The message `send_message_multiple` posts for one entry. */
  function LootEmbed(l: Loot): Embed {
    Embed(l.name, l.weblink, Favicon, [Field(OpenInBrowser, l.weblink, false)], Some(l.image))
  }

  /** The messages of the multi-message style, one per passing entry. */
  function MultipleMessages(data: seq<Loot>, games: seq<string>): (ms: seq<Message>)
    ensures |ms| <= |data|
  {
    var p := Passing(data, games);
    seq(|p|, k requires 0 <= k < |p| => Rich(LootEmbed(p[k])))
  }

  /** Each multi-style message carries its entry's title, link and image. */
  lemma MultipleMessagesSpec(data: seq<Loot>, games: seq<string>)
    ensures var p, ms := Passing(data, games), MultipleMessages(data, games);
      && |ms| == |p|
      && forall k :: 0 <= k < |ms| ==>
        && ms[k].Rich?
        && ms[k].embed.title == p[k].name
        && ms[k].embed.url == p[k].weblink
        && ms[k].embed.fields == [Field(OpenInBrowser, p[k].weblink, false)]
        && ms[k].embed.image == Some(p[k].image)
  {
  }

  /** `send_message_multiple`: returns the messages it sends, in order. */
  method SendMessageMultiple(data: seq<Loot>, games: seq<string>) returns (sent: seq<Message>)
    ensures sent == MultipleMessages(data, games)
  {
    sent := [];
    var i := 0;
    while i < |data|
      invariant 0 <= i <= |data|
      invariant sent == MultipleMessages(data[..i], games)
    {
      var entry := data[i];
      assert data[..i + 1][..i] == data[..i];
      if BaseName(entry.name) in games {
        sent := sent + [Rich(LootEmbed(entry))];
      }
      i := i + 1;
    }
    assert data[..i] == data;
  }

  /** The fields of the single message: bold title, then the link. */
  function SingleFields(p: seq<Loot>): seq<Field> {
    seq(|p|, k requires 0 <= k < |p| => Field("**" + p[k].name + "**", p[k].weblink, false))
  }

  /** The image links of the entries, in order. */
  function Images(p: seq<Loot>): seq<string> {
    seq(|p|, k requires 0 <= k < |p| => p[k].image)
  }

  lemma SingleFieldsAppend(p: seq<Loot>, x: Loot)
    ensures SingleFields(p + [x]) == SingleFields(p) + [Field("**" + x.name + "**", x.weblink, false)]
    ensures Images(p + [x]) == Images(p) + [x.image]
  {
  }

  /** Filtering one more entry appends it exactly when it is wanted. */
  lemma PassingAppend(data: seq<Loot>, i: int, games: seq<string>)
    requires 0 <= i < |data|
    ensures Passing(data[..i + 1], games)
      == Passing(data[..i], games) + (if Wanted(data[i].name, games) then [data[i]] else [])
  {
    assert data[..i + 1][..i] == data[..i];
  }

  /** The messages of the single-message style: nothing when no entry
      passes, else one message whose image `randrange(0, len - 1)` picks. */
  function SingleMessage(data: seq<Loot>, games: seq<string>, draw: nat): Result<seq<Message>, Error> {
    var p := Passing(data, games);
    if |p| == 0 then Ok([])
    else
      var j :- RandRange(0, |p| - 1, draw);
      Ok([Rich(Embed(SingleTitle, HomePage, Favicon, SingleFields(p), Some(Images(p)[j])))])
  }

  /** No passing entry sends nothing; exactly one makes the pick raise; two
      or more send one message with a field per entry and an image that is
      never the last one. */
  lemma SingleMessageSpec(data: seq<Loot>, games: seq<string>, draw: nat)
    ensures var p, r := Passing(data, games), SingleMessage(data, games, draw);
      && (|p| == 0 ==> r == Ok([]))
      && (|p| == 1 ==> r == Err(EmptyRange))
      && (|p| >= 2 ==>
        && r.Ok? && |r.value| == 1 && r.value[0].Rich?
        && r.value[0].embed.title == SingleTitle
        && |r.value[0].embed.fields| == |p|
        && (forall k :: 0 <= k < |p| ==>
              r.value[0].embed.fields[k] == Field("**" + p[k].name + "**", p[k].weblink, false))
        && exists j :: 0 <= j < |p| - 1 && r.value[0].embed.image == Some(p[j].image))
  {
  }

  /** Every image but the last can be the one chosen. */
  lemma SingleMessageImageReachable(data: seq<Loot>, games: seq<string>, j: int)
    requires 0 <= j < |Passing(data, games)| - 1
    ensures exists draw: nat ::
      SingleMessage(data, games, draw).Ok? &&
      SingleMessage(data, games, draw).value[0].embed.image == Some(Passing(data, games)[j].image)
  {
    var p := Passing(data, games);
    RandRangeReaches(0, |p| - 1, j);
    var draw: nat :| RandRange(0, |p| - 1, draw) == Ok(j);
    assert SingleMessage(data, games, draw).value[0].embed.image == Some(p[j].image);
  }

  /** `send_message_single`: returns the messages it sends, or the exception. */
  method SendMessageSingle(data: seq<Loot>, games: seq<string>, draw: nat) returns (r: Result<seq<Message>, Error>)
    ensures r == SingleMessage(data, games, draw)
  {
    var fields: seq<Field> := [];
    var images: seq<string> := [];
    var i := 0;
    while i < |data|
      invariant 0 <= i <= |data|
      invariant fields == SingleFields(Passing(data[..i], games))
      invariant images == Images(Passing(data[..i], games))
    {
      var entry := data[i];
      PassingAppend(data, i, games);
      SingleFieldsAppend(Passing(data[..i], games), entry);
      if BaseName(entry.name) in games {
        images := images + [entry.image];
        fields := fields + [Field("**" + entry.name + "**", entry.weblink, false)];
      }
      i := i + 1;
    }
    assert data[..i] == data;
    if |images| > 0 {
      var pick :- RandRange(0, |images| - 1, draw);
      var embed := Embed(SingleTitle, HomePage, Favicon, fields, Some(images[pick]));
      return Ok([Rich(embed)]);
    }
    return Ok([]);
  }

  /** What is posted once the data is known: the no-content notice, or the
      style `messageType` selects (0 single, 1 multiple, else nothing). */
  function Reply(data: seq<Loot>, games: seq<string>, messageType: int, draw: nat): Result<seq<Message>, Error> {
    if |data| == 0 then Ok([Text(NoContentNotice)])
    else if messageType == 0 then SingleMessage(data, games, draw)
    else if messageType == 1 then Ok(MultipleMessages(data, games))
    else Ok([])
  }

  /** `handle_cmd` over the cache document `doc`, with `page` the cards a
      fetch would see, `now` the clock at the age check, `fetchTime` the clock
      when the fetch saves, and `draw` the random draw. */
  function Command(
    doc: CacheDocument<Loot>, page: seq<ItemCard>, games: seq<string>, messageType: int,
    fetch: bool, now: int, fetchTime: int, draw: nat): Run<Loot>
  {
    match Freshness(fetch, doc, now)
    case Unreadable => Run(doc, [], false, Raised(BadTimestamp))
    case Reuse => Respond(doc, Reply(doc.data, games, messageType, draw), false)
    case Refetch =>
      match ExtractAll(page)
      case Err(e) => Run(doc, [Text(CheckingNotice)], true, Raised(e))
      case Ok(data) => Respond(CacheDocument(fetchTime, data), Reply(data, games, messageType, draw), true)
  }

  /** A fetch happens exactly when it is forced, the cache is empty, or the
      cache is a day old (and its timestamp readable). */
  lemma CommandFetchRule(
    doc: CacheDocument<Loot>, page: seq<ItemCard>, games: seq<string>, messageType: int,
    fetch: bool, now: int, fetchTime: int, draw: nat)
    ensures Command(doc, page, games, messageType, fetch, now, fetchTime, draw).fetched <==>
      fetch || |doc.data| == 0 || (doc.timestamp % MicrosPerSecond != 0 && now - doc.timestamp >= OneDay)
  {
  }

  /** Without a fetch the cache is untouched, and a fresh cache is posted as it is. */
  lemma CommandReusesCache(
    doc: CacheDocument<Loot>, page: seq<ItemCard>, games: seq<string>, messageType: int,
    fetch: bool, now: int, fetchTime: int, draw: nat)
    ensures var run := Command(doc, page, games, messageType, fetch, now, fetchTime, draw);
      && (!run.fetched ==> run.doc == doc)
      && (Freshness(fetch, doc, now) == Reuse ==>
            Respond(doc, Reply(doc.data, games, messageType, draw), false) == run)
  {
  }

  /** A fetch that extracts overwrites the cache, even with an empty list. */
  lemma CommandOverwritesCache(
    doc: CacheDocument<Loot>, page: seq<ItemCard>, games: seq<string>, messageType: int,
    fetch: bool, now: int, fetchTime: int, draw: nat)
    requires Freshness(fetch, doc, now) == Refetch
    requires ExtractAll(page).Ok?
    ensures var run := Command(doc, page, games, messageType, fetch, now, fetchTime, draw);
      run.doc == CacheDocument(fetchTime, ExtractAll(page).value)
  {
  }

  /** A fetch that extracts nothing still saves the empty list, and only the
      no-content notice is posted. */
  lemma CommandEmptyFetch(
    doc: CacheDocument<Loot>, page: seq<ItemCard>, games: seq<string>, messageType: int,
    fetch: bool, now: int, fetchTime: int, draw: nat)
    requires Freshness(fetch, doc, now) == Refetch
    requires ExtractAll(page) == Ok([])
    ensures Command(doc, page, games, messageType, fetch, now, fetchTime, draw)
      == Run(CacheDocument(fetchTime, []), [Text(NoContentNotice)], true, Completed)
  {
  }

  /** What a command posts once its list `data` is known (the fresh cache, or
      what the fetch extracted): the no-content notice for an empty list, else
      the single message for type 0, one message per passing entry for type 1,
      and nothing for any other type. */
  lemma CommandReplies(
    doc: CacheDocument<Loot>, page: seq<ItemCard>, games: seq<string>, messageType: int,
    fetch: bool, now: int, fetchTime: int, draw: nat, data: seq<Loot>)
    requires || (Freshness(fetch, doc, now) == Reuse && data == doc.data)
             || (Freshness(fetch, doc, now) == Refetch && ExtractAll(page) == Ok(data))
    ensures var run := Command(doc, page, games, messageType, fetch, now, fetchTime, draw);
      run.doc == if run.fetched then CacheDocument(fetchTime, data) else doc
    ensures var run := Command(doc, page, games, messageType, fetch, now, fetchTime, draw);
      |data| == 0 ==> run.sent == [Text(NoContentNotice)] && run.status == Completed
    ensures var run := Command(doc, page, games, messageType, fetch, now, fetchTime, draw);
      |data| != 0 && messageType == 0 ==> run == Respond(run.doc, SingleMessage(data, games, draw), run.fetched)
    ensures var run := Command(doc, page, games, messageType, fetch, now, fetchTime, draw);
      |data| != 0 && messageType == 1 ==> run.sent == MultipleMessages(data, games) && run.status == Completed
    ensures var run := Command(doc, page, games, messageType, fetch, now, fetchTime, draw);
      |data| != 0 && messageType != 0 && messageType != 1 ==> run.sent == [] && run.status == Completed
  {
  }

  /** `fetch_data`: extracts the page and saves the result, even an empty one. */
  method FetchData(cache: CacheFile<Loot>, page: seq<ItemCard>, fetchTime: int)
    returns (r: Result<seq<Loot>, Error>)
    modifies cache
    ensures r == ExtractAll(page)
    ensures r.Ok? ==> cache.doc == CacheDocument(fetchTime, r.value)
    ensures r.Err? ==> cache.doc == old(cache.doc)
  {
    var data :- ExtractDataFromHtml(page);
    cache.Save(data, fetchTime);
    return Ok(data);
  }

  /** The notice, the fetch, and the notice deleted again once the fetch returns. */
  method Refresh(cache: CacheFile<Loot>, channel: Channel, page: seq<ItemCard>, fetchTime: int)
    returns (r: Result<seq<Loot>, Error>)
    modifies cache, channel
    ensures r == ExtractAll(page)
    ensures r.Err? ==> cache.doc == old(cache.doc) && channel.log == old(channel.log) + [Text(CheckingNotice)]
    ensures r.Ok? ==> cache.doc == CacheDocument(fetchTime, r.value) && channel.log == old(channel.log)
  {
    channel.Send(Text(CheckingNotice));
    r := FetchData(cache, page, fetchTime);
    if r.Ok? {
      channel.Delete(Text(CheckingNotice));
    }
  }

  /** `handle_cmd`. */
  method HandleCmd(
    cache: CacheFile<Loot>, channel: Channel, games: seq<string>, messageType: int,
    fetch: bool, now: int, fetchTime: int, page: seq<ItemCard>, draw: nat)
    returns (status: Status)
    modifies cache, channel
    ensures var run := Command(old(cache.doc), page, games, messageType, fetch, now, fetchTime, draw);
      && cache.doc == run.doc
      && channel.log == old(channel.log) + run.sent
      && status == run.status
  {
    var data: seq<Loot>;
    if fetch {
      var r := Refresh(cache, channel, page, fetchTime);
      if r.Err? { return Raised(r.error); }
      data := r.value;
    } else {
      var doc := cache.Load();
      data := doc.data;
      if |doc.data| == 0 {
        var r := Refresh(cache, channel, page, fetchTime);
        if r.Err? { return Raised(r.error); }
        data := r.value;
      } else {
        var last := ReadTimestamp(doc.timestamp);
        if last.None? { return Raised(BadTimestamp); }
        if now - last.value >= OneDay {
          var r := Refresh(cache, channel, page, fetchTime);
          if r.Err? { return Raised(r.error); }
          data := r.value;
        }
      }
    }

    if |data| == 0 {
      channel.Send(Text(NoContentNotice));
      return Completed;
    }
    if messageType == 0 {
      var r := SendMessageSingle(data, games, draw);
      if r.Err? { return Raised(r.error); }
      channel.SendAll(r.value);
    } else if messageType == 1 {
      var sent := SendMessageMultiple(data, games);
      channel.SendAll(sent);
    }
    return Completed;
  }
}
