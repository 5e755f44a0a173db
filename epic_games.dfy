// The Epic Games storefront (bot/bot_modules/get_epic_games_data.py): the
// free-games promotion feed, filtered to games made free, the end date and a
// wide image per game, a cache file, and two ways of posting the offers.

module EpicGames {
  import opened Wrappers
  import opened PyStr
  import opened Discord
  import opened Pipeline

  const StoreUrl := "https://store.epicgames.com/free-games"
  const Logo := "https://upload.wikimedia.org/wikipedia/commons/thumb/a/a7/Epic_Games_logo.png/527px-Epic_Games_logo.png?20180404191303"
  const Heading := "Now free on Epic Games"
  const WideImage := "OfferImageWide"
  const BadRequest := 400

  /** One entry of `keyImages`. */
  datatype KeyImage = KeyImage(kind: string, url: string)

  /** One entry of `appliedRules`, reduced to its end date. */
  datatype AppliedRule = AppliedRule(endDate: string)

  /** One entry of `price.lineOffers`. */
  datatype LineOffer = LineOffer(appliedRules: seq<AppliedRule>)

  /** One game of `data.Catalog.searchStore.elements`, with the prices of `price.totalPrice`. */
  datatype Element = Element(
    title: string,
    discountPrice: int,
    originalPrice: int,
    lineOffers: seq<LineOffer>,
    keyImages: seq<KeyImage>)

  /** The HTTP response: its status, and the element list when the body is
      JSON with that key path (None when `r.json()` or the lookup raises). */
  datatype Response = Response(status: int, elements: Option<seq<Element>>)

  /** One offer: title, end date as DD.MM.YYYY, image link. */
  datatype Offer = Offer(title: string, endDate: string, image: string)

  /** A game that normally costs something and is now free. */
  predicate IsFree(g: Element) {
    g.discountPrice == 0 && g.originalPrice != 0
  }

  /** `raw[8:10] + "." + raw[5:7] + "." + raw[:4]`. */
  function FormatEndDate(raw: string): string {
    Slice(raw, 8, 10) + "." + Slice(raw, 5, 7) + "." + Slice(raw, 0, 4)
  }

  /** For an ISO 8601 extended date-time (section 4.1.2.2 of ISO 8601:2004,
      YYYY-MM-DD then the time), the date comes out as DD.MM.YYYY. */
  lemma FormatEndDateIso(year: string, month: string, day: string, rest: string)
    requires |year| == 4 && |month| == 2 && |day| == 2
    ensures FormatEndDate(year + "-" + month + "-" + day + rest) == day + "." + month + "." + year
  {
    var raw := year + "-" + month + "-" + day + rest;
    assert raw[8..10] == day;
    assert raw[5..7] == month;
    assert raw[0..4] == year;
  }

  lemma FormatEndDateExample()
    ensures FormatEndDate("2024-06-01T00:00:00Z") == "01.06.2024"
  {
    FormatEndDateIso("2024", "06", "01", "T00:00:00Z");
    assert "2024" + "-" + "06" + "-" + "01" + "T00:00:00Z" == "2024-06-01T00:00:00Z";
  }

  /** `price.lineOffers[0].appliedRules[0].endDate`. */
  function EndDateOf(g: Element): Result<string, Error> {
    if |g.lineOffers| == 0 || |g.lineOffers[0].appliedRules| == 0 then Err(IndexOutOfRange)
    else Ok(g.lineOffers[0].appliedRules[0].endDate)
  }

  /** The index of the first "OfferImageWide" entry, or -1 when there is none. */
  function WideIndex(images: seq<KeyImage>): (r: int)
    ensures -1 <= r < |images|
    ensures r == -1 <==> forall k :: 0 <= k < |images| ==> images[k].kind != WideImage
    ensures 0 <= r ==> images[r].kind == WideImage && forall k :: 0 <= k < r ==> images[k].kind != WideImage
  {
    if |images| == 0 then -1
    else if images[0].kind == WideImage then 0
    else
      var k := WideIndex(images[1..]);
      if k == -1 then -1 else k + 1
  }

  /** The value `image` holds after a game: its first wide image, or else
      whatever an earlier game left in it (`carried`). */
  function ImageFor(g: Element, carried: Option<string>): (r: Option<string>)
    ensures forall k ::
      (0 <= k < |g.keyImages| && g.keyImages[k].kind == WideImage &&
       forall m :: 0 <= m < k ==> g.keyImages[m].kind != WideImage) ==> r == Some(g.keyImages[k].url)
    ensures (forall k :: 0 <= k < |g.keyImages| ==> g.keyImages[k].kind != WideImage) ==> r == carried
    ensures carried.Some? ==> r.Some?
    ensures r.None? <==> carried.None? && forall k :: 0 <= k < |g.keyImages| ==> g.keyImages[k].kind != WideImage
  {
    var k := WideIndex(g.keyImages);
    if k >= 0 then Some(g.keyImages[k].url) else carried
  }

  /** The offer of one free game, or the exception reading it raises. */
  function OfferOf(g: Element, carried: Option<string>): Result<Offer, Error> {
    var raw :- EndDateOf(g);
    match ImageFor(g, carried)
    case None => Err(UnboundImage)
    case Some(image) => Ok(Offer(g.title, FormatEndDate(raw), image))
  }

  /** The loop of `fetch_data_epic` over `els`, with `image` holding `carried` on entry. */
  function OffersFrom(els: seq<Element>, carried: Option<string>): Result<seq<Offer>, Error>
    decreases |els|
  {
    if |els| == 0 then Ok([])
    else if !IsFree(els[0]) then OffersFrom(els[1..], carried)
    else
      var offer :- OfferOf(els[0], carried);
      var rest :- OffersFrom(els[1..], Some(offer.image));
      Ok([offer] + rest)
  }

  /** `fetch_data_epic` on a response already received. */
  function FetchOffers(resp: Response): (r: Result<seq<Offer>, Error>)
    ensures resp.status == BadRequest ==> r == Ok([])
    ensures resp.status != BadRequest && resp.elements.None? ==> r == Err(BodyNotJson)
  {
    if resp.status == BadRequest then Ok([])
    else match resp.elements
      case None => Err(BodyNotJson)
      case Some(els) => OffersFrom(els, None)
  }

  /** The games that pass the price filter, in input order. */
  function FreeElements(els: seq<Element>): (r: seq<Element>)
    ensures |r| <= |els|
    ensures forall g :: g in r <==> g in els && IsFree(g)
  {
    if |els| == 0 then []
    else
      assert els == [els[0]] + els[1..];
      (if IsFree(els[0]) then [els[0]] else []) + FreeElements(els[1..])
  }

  /** The filter keeps input order: filtering a concatenation filters each part. */
  lemma {:induction false} FreeElementsConcat(a: seq<Element>, b: seq<Element>)
    ensures FreeElements(a + b) == FreeElements(a) + FreeElements(b)
  {
    if |a| == 0 {
      assert a + b == b;
    } else {
      assert (a + b)[1..] == a[1..] + b;
      FreeElementsConcat(a[1..], b);
    }
  }

  /** Extraction succeeds exactly when every free game has an end date and
      the first of them has a wide image or finds one carried over. */
  lemma {:induction false} OffersFromOk(els: seq<Element>, carried: Option<string>)
    ensures var f := FreeElements(els);
      OffersFrom(els, carried).Ok? <==>
        && (forall i :: 0 <= i < |f| ==> EndDateOf(f[i]).Ok?)
        && (|f| == 0 || ImageFor(f[0], carried).Some?)
    decreases |els|
  {
    if |els| > 0 {
      var f, f' := FreeElements(els), FreeElements(els[1..]);
      if !IsFree(els[0]) {
        assert f == f';
        OffersFromOk(els[1..], carried);
      } else {
        assert f == [els[0]] + f';
        assert forall i :: 1 <= i < |f| ==> f[i] == f'[i - 1];
        match OfferOf(els[0], carried)
        case Err(_) =>
        case Ok(offer) =>
          assert EndDateOf(els[0]).Ok? && ImageFor(els[0], carried).Some?;
          assert OffersFrom(els, carried) == Extend([offer], OffersFrom(els[1..], Some(offer.image)));
          assert forall j :: 0 <= j < |f'| ==> f'[j] == f[j + 1];
          if |f'| > 0 {
            assert ImageFor(f'[0], Some(offer.image)).Some?;
          }
          OffersFromOk(els[1..], Some(offer.image));
      }
    }
  }

  /** The `image` value a game starts from: what the offer before it used. */
  function Previous(carried: Option<string>, offers: seq<Offer>, i: nat): Option<string>
    requires i <= |offers|
  {
    if i == 0 then carried else Some(offers[i - 1].image)
  }

  /** A successful extraction is one offer per free game, in order, each read
      from that game with the image the previous offer left behind. */
  lemma {:induction false} OffersFromPerGame(els: seq<Element>, carried: Option<string>)
    requires OffersFrom(els, carried).Ok?
    ensures var r, f := OffersFrom(els, carried).value, FreeElements(els);
      && |r| == |f|
      && forall i :: 0 <= i < |f| ==> OfferOf(f[i], Previous(carried, r, i)) == Ok(r[i])
    decreases |els|
  {
    if |els| > 0 {
      var f, f' := FreeElements(els), FreeElements(els[1..]);
      if !IsFree(els[0]) {
        assert f == f';
        OffersFromPerGame(els[1..], carried);
      } else {
        var offer := OfferOf(els[0], carried).value;
        var r' := OffersFrom(els[1..], Some(offer.image)).value;
        OffersFromPerGame(els[1..], Some(offer.image));
        assert OffersFrom(els, carried) == Extend([offer], OffersFrom(els[1..], Some(offer.image)));
        var r := OffersFrom(els, carried).value;
        assert r == [offer] + r';
        assert f == [els[0]] + f';
        forall i | 1 <= i < |f|
          ensures OfferOf(f[i], Previous(carried, r, i)) == Ok(r[i])
        {
          assert f[i] == f'[i - 1] && r[i] == r'[i - 1];
          assert Previous(carried, r, i) == Previous(Some(offer.image), r', i - 1);
        }
      }
    }
  }

  /** A successful extraction keeps one offer per free game, in order: its
      title, its reformatted end date, and its first wide image or, lacking
      one, the image of the offer before it. */
  lemma OffersFromSpec(els: seq<Element>, carried: Option<string>)
    requires OffersFrom(els, carried).Ok?
    ensures var r, f := OffersFrom(els, carried).value, FreeElements(els);
      && |r| == |f|
      && (forall i :: 0 <= i < |f| ==> r[i].title == f[i].title)
      && (forall i :: 0 <= i < |f| ==> EndDateOf(f[i]).Ok?)
      && (forall i :: 0 <= i < |f| && EndDateOf(f[i]).Ok? ==> r[i].endDate == FormatEndDate(EndDateOf(f[i]).value))
      && (forall i :: 0 <= i < |f| ==> Some(r[i].image) == ImageFor(f[i], if i == 0 then carried else Some(r[i - 1].image)))
  {
    OffersFromPerGame(els, carried);
    var r, f := OffersFrom(els, carried).value, FreeElements(els);
    forall i | 0 <= i < |f|
      ensures r[i].title == f[i].title && EndDateOf(f[i]).Ok?
      ensures r[i].endDate == FormatEndDate(EndDateOf(f[i]).value)
      ensures Some(r[i].image) == ImageFor(f[i], if i == 0 then carried else Some(r[i - 1].image))
    {
      assert OfferOf(f[i], Previous(carried, r, i)) == Ok(r[i]);
    }
  }

  /** Without a wide image on the first free game and nothing carried, `image` is unbound. */
  lemma FirstOfferNeedsWideImage(els: seq<Element>)
    requires |FreeElements(els)| > 0
    requires forall k :: 0 <= k < |FreeElements(els)[0].keyImages| ==> FreeElements(els)[0].keyImages[k].kind != WideImage
    ensures OffersFrom(els, None).Err?
  {
    OffersFromOk(els, None);
  }

  /** A response other than 400 that extracts yields one offer per free game, titles in order. */
  lemma FetchOffersKeepsFree(resp: Response)
    requires resp.status != BadRequest && FetchOffers(resp).Ok?
    ensures resp.elements.Some?
    ensures var r, f := FetchOffers(resp).value, FreeElements(resp.elements.value);
      && |r| == |f| <= |resp.elements.value|
      && forall i :: 0 <= i < |r| ==> r[i].title == f[i].title
  {
    OffersFromSpec(resp.elements.value, None);
  }

  /** `fetch_data_epic`, with the inner loop that looks for the wide image. */
  method FetchDataEpic(resp: Response) returns (r: Result<seq<Offer>, Error>)
    ensures r == FetchOffers(resp)
  {
    var data: seq<Offer> := [];
    if resp.status == BadRequest {
      return Ok(data);
    }
    if resp.elements.None? {
      return Err(BodyNotJson);
    }
    var games := resp.elements.value;
    var image: Option<string> := None;
    var i := 0;
    ExtendNothing(OffersFrom(games, None));
    while i < |games|
      invariant 0 <= i <= |games|
      invariant OffersFrom(games, None) == Extend(data, OffersFrom(games[i..], image))
    {
      var game := games[i];
      assert games[i..][1..] == games[i + 1..];
      if game.discountPrice == 0 && game.originalPrice != 0 {
        if |game.lineOffers| == 0 || |game.lineOffers[0].appliedRules| == 0 {
          return Err(IndexOutOfRange);
        }
        var raw := game.lineOffers[0].appliedRules[0].endDate;
        var endDate := Slice(raw, 8, 10) + "." + Slice(raw, 5, 7) + "." + Slice(raw, 0, 4);

        ghost var before := image;
        var j := 0;
        while j < |game.keyImages|
          invariant 0 <= j <= |game.keyImages|
          invariant image == before
          invariant forall k :: 0 <= k < j ==> game.keyImages[k].kind != WideImage
        {
          if game.keyImages[j].kind == WideImage {
            image := Some(game.keyImages[j].url);
            break;
          }
          j := j + 1;
        }
        assert image == ImageFor(game, before);

        if image.None? {
          return Err(UnboundImage);
        }
        var offer := Offer(game.title, endDate, image.value);
        assert OffersFrom(games[i..], before) == Extend([offer], OffersFrom(games[i + 1..], image));
        ExtendTwice(data, [offer], OffersFrom(games[i + 1..], image));
        data := data + [offer];
      }
      i := i + 1;
    }
    assert games[i..] == [];
    assert data + [] == data;
    return Ok(data);
  }

  /** The message `send_message_multiple` posts for one offer. */
  function OfferEmbed(o: Offer): Embed {
    Embed(Heading, StoreUrl, Logo, [Field(o.title, "Free until " + o.endDate, false)], Some(o.image))
  }

  /** The messages of the multi-message style: one per offer, none filtered out. */
  function MultipleMessages(data: seq<Offer>): (ms: seq<Message>)
    ensures |ms| == |data|
    ensures forall k :: 0 <= k < |data| ==>
      && ms[k].Rich?
      && ms[k].embed.fields == [Field(data[k].title, "Free until " + data[k].endDate, false)]
      && ms[k].embed.image == Some(data[k].image)
  {
    seq(|data|, k requires 0 <= k < |data| => Rich(OfferEmbed(data[k])))
  }

  /** `send_message_multiple`: returns the messages it sends, in order. */
  method SendMessageMultiple(data: seq<Offer>) returns (sent: seq<Message>)
    ensures sent == MultipleMessages(data)
  {
    sent := [];
    var i := 0;
    while i < |data|
      invariant 0 <= i <= |data|
      invariant sent == MultipleMessages(data[..i])
    {
      var entry := data[i];
      var embed := Embed(Heading, StoreUrl, Logo, [Field(entry.title, "Free until " + entry.endDate, false)], Some(entry.image));
      sent := sent + [Rich(embed)];
      i := i + 1;
    }
    assert data[..i] == data;
  }

  /** The fields of the single message: bold title, then the end date. */
  function SingleFields(data: seq<Offer>): seq<Field> {
    seq(|data|, k requires 0 <= k < |data| => Field("**" + data[k].title + "**", "Free until " + data[k].endDate, false))
  }

  /** The image links of the offers, in order. */
  function Images(data: seq<Offer>): seq<string> {
    seq(|data|, k requires 0 <= k < |data| => data[k].image)
  }

  /** The messages of the single-message style. */
  function SingleMessage(data: seq<Offer>, draw: nat): Result<seq<Message>, Error> {
    if |data| == 0 then Ok([])
    else
      var j :- RandRange(0, |data| - 1, draw);
      Ok([Rich(Embed(Heading, StoreUrl, Logo, SingleFields(data), Some(Images(data)[j])))])
  }

  /** A message is sent only for a non-empty list; one offer makes the pick
      raise; otherwise one message with a field per offer and an image that
      is never the last offer's. */
  lemma SingleMessageSpec(data: seq<Offer>, draw: nat)
    ensures var r := SingleMessage(data, draw);
      && (|data| == 0 ==> r == Ok([]))
      && (|data| == 1 ==> r == Err(EmptyRange))
      && (|data| >= 2 ==>
        && r.Ok? && |r.value| == 1 && r.value[0].Rich?
        && |r.value[0].embed.fields| == |data|
        && (forall k :: 0 <= k < |data| ==>
              r.value[0].embed.fields[k] == Field("**" + data[k].title + "**", "Free until " + data[k].endDate, false))
        && exists j :: 0 <= j < |data| - 1 && r.value[0].embed.image == Some(data[j].image))
  {
  }

  /** Every image but the last can be the one chosen. */
  lemma SingleMessageImageReachable(data: seq<Offer>, j: int)
    requires 0 <= j < |data| - 1
    ensures exists draw: nat ::
      SingleMessage(data, draw).Ok? && SingleMessage(data, draw).value[0].embed.image == Some(data[j].image)
  {
    RandRangeReaches(0, |data| - 1, j);
    var draw: nat :| RandRange(0, |data| - 1, draw) == Ok(j);
    assert SingleMessage(data, draw).value[0].embed.image == Some(data[j].image);
  }

  /** `send_message_single`: returns the messages it sends, or the exception. */
  method SendMessageSingle(data: seq<Offer>, draw: nat) returns (r: Result<seq<Message>, Error>)
    ensures r == SingleMessage(data, draw)
  {
    var fields: seq<Field> := [];
    var images: seq<string> := [];
    var i := 0;
    while i < |data|
      invariant 0 <= i <= |data|
      invariant fields == SingleFields(data[..i])
      invariant images == Images(data[..i])
    {
      var entry := data[i];
      images := images + [entry.image];
      fields := fields + [Field("**" + entry.title + "**", "Free until " + entry.endDate, false)];
      i := i + 1;
    }
    assert data[..i] == data;
    if |images| > 0 {
      var pick :- RandRange(0, |images| - 1, draw);
      var embed := Embed(Heading, StoreUrl, Logo, fields, Some(images[pick]));
      return Ok([Rich(embed)]);
    }
    return Ok([]);
  }

  /** What is posted once the data is known: the no-content notice, or the
      style `messageType` selects (0 single, 1 multiple, else nothing). */
  function Reply(data: seq<Offer>, messageType: int, draw: nat): Result<seq<Message>, Error> {
    if |data| == 0 then Ok([Text(NoContentNotice)])
    else if messageType == 0 then SingleMessage(data, draw)
    else if messageType == 1 then Ok(MultipleMessages(data))
    else Ok([])
  }

  /** The cache after a fetch: replaced only by a non-empty list. */
  function AfterFetch(doc: CacheDocument<Offer>, data: seq<Offer>, fetchTime: int): CacheDocument<Offer> {
    if |data| > 0 then CacheDocument(fetchTime, data) else doc
  }

  /** `handle_cmd` over the cache document `doc`, with `resp` the response a
      fetch would receive, `now` the clock at the age check, `fetchTime` the
      clock when the fetch saves, and `draw` the random draw. */
  function Command(
    doc: CacheDocument<Offer>, resp: Response, messageType: int,
    fetch: bool, now: int, fetchTime: int, draw: nat): Run<Offer>
  {
    match Freshness(fetch, doc, now)
    case Unreadable => Run(doc, [], false, Raised(BadTimestamp))
    case Reuse => Respond(doc, Reply(doc.data, messageType, draw), false)
    case Refetch =>
      match FetchOffers(resp)
      case Err(e) => Run(doc, [Text(CheckingNotice)], true, Raised(e))
      case Ok(data) => Respond(AfterFetch(doc, data, fetchTime), Reply(data, messageType, draw), true)
  }

  /** A fetch happens exactly when it is forced, the cache is empty, or the
      cache is a day old (and its timestamp readable). */
  lemma CommandFetchRule(
    doc: CacheDocument<Offer>, resp: Response, messageType: int,
    fetch: bool, now: int, fetchTime: int, draw: nat)
    ensures Command(doc, resp, messageType, fetch, now, fetchTime, draw).fetched <==>
      fetch || |doc.data| == 0 || (doc.timestamp % MicrosPerSecond != 0 && now - doc.timestamp >= OneDay)
  {
  }

  /** Without a fetch the cache is untouched, and a fresh cache is posted as it is. */
  lemma CommandReusesCache(
    doc: CacheDocument<Offer>, resp: Response, messageType: int,
    fetch: bool, now: int, fetchTime: int, draw: nat)
    ensures var run := Command(doc, resp, messageType, fetch, now, fetchTime, draw);
      && (!run.fetched ==> run.doc == doc)
      && (Freshness(fetch, doc, now) == Reuse ==> Respond(doc, Reply(doc.data, messageType, draw), false) == run)
  {
  }

  /** A fetch that yields nothing leaves the cache as it was and posts only
      the no-content notice; a status of 400 is such a fetch. */
  lemma CommandEmptyFetch(
    doc: CacheDocument<Offer>, resp: Response, messageType: int,
    fetch: bool, now: int, fetchTime: int, draw: nat)
    requires Freshness(fetch, doc, now) == Refetch
    requires FetchOffers(resp) == Ok([]) || resp.status == BadRequest
    ensures Command(doc, resp, messageType, fetch, now, fetchTime, draw)
      == Run(doc, [Text(NoContentNotice)], true, Completed)
  {
  }

  /** A fetch with offers replaces the whole cache document. */
  lemma CommandReplacesCache(
    doc: CacheDocument<Offer>, resp: Response, messageType: int,
    fetch: bool, now: int, fetchTime: int, draw: nat)
    requires Freshness(fetch, doc, now) == Refetch
    requires FetchOffers(resp).Ok? && |FetchOffers(resp).value| > 0
    ensures Command(doc, resp, messageType, fetch, now, fetchTime, draw).doc
      == CacheDocument(fetchTime, FetchOffers(resp).value)
  {
  }

  /** What a command posts once its list `data` is known (the fresh cache, or
      what the fetch returned): the no-content notice for an empty list, else
      the single message for type 0, one message per offer for type 1, and
      nothing for any other type. */
  lemma CommandReplies(
    doc: CacheDocument<Offer>, resp: Response, messageType: int,
    fetch: bool, now: int, fetchTime: int, draw: nat, data: seq<Offer>)
    requires || (Freshness(fetch, doc, now) == Reuse && data == doc.data)
             || (Freshness(fetch, doc, now) == Refetch && FetchOffers(resp) == Ok(data))
    ensures var run := Command(doc, resp, messageType, fetch, now, fetchTime, draw);
      run.doc == if run.fetched then AfterFetch(doc, data, fetchTime) else doc
    ensures var run := Command(doc, resp, messageType, fetch, now, fetchTime, draw);
      |data| == 0 ==> run.sent == [Text(NoContentNotice)] && run.status == Completed
    ensures var run := Command(doc, resp, messageType, fetch, now, fetchTime, draw);
      |data| != 0 && messageType == 0 ==> run == Respond(run.doc, SingleMessage(data, draw), run.fetched)
    ensures var run := Command(doc, resp, messageType, fetch, now, fetchTime, draw);
      |data| != 0 && messageType == 1 ==> run.sent == MultipleMessages(data) && run.status == Completed
    ensures var run := Command(doc, resp, messageType, fetch, now, fetchTime, draw);
      |data| != 0 && messageType != 0 && messageType != 1 ==> run.sent == [] && run.status == Completed
  {
  }

  /** `fetch_data`: saves the offers only when there are some. */
  method FetchData(cache: CacheFile<Offer>, resp: Response, fetchTime: int)
    returns (r: Result<seq<Offer>, Error>)
    modifies cache
    ensures r == FetchOffers(resp)
    ensures r.Ok? ==> cache.doc == AfterFetch(old(cache.doc), r.value, fetchTime)
    ensures r.Err? ==> cache.doc == old(cache.doc)
  {
    var data :- FetchDataEpic(resp);
    if |data| > 0 {
      cache.Save(data, fetchTime);
    }
    return Ok(data);
  }

  /** The notice, the fetch, and the notice deleted again once the fetch returns. */
  method Refresh(cache: CacheFile<Offer>, channel: Channel, resp: Response, fetchTime: int)
    returns (r: Result<seq<Offer>, Error>)
    modifies cache, channel
    ensures r == FetchOffers(resp)
    ensures r.Err? ==> cache.doc == old(cache.doc) && channel.log == old(channel.log) + [Text(CheckingNotice)]
    ensures r.Ok? ==> cache.doc == AfterFetch(old(cache.doc), r.value, fetchTime) && channel.log == old(channel.log)
  {
    channel.Send(Text(CheckingNotice));
    r := FetchData(cache, resp, fetchTime);
    if r.Ok? {
      channel.Delete(Text(CheckingNotice));
    }
  }

  /** `handle_cmd`. */
  method HandleCmd(
    cache: CacheFile<Offer>, channel: Channel, messageType: int,
    fetch: bool, now: int, fetchTime: int, resp: Response, draw: nat)
    returns (status: Status)
    modifies cache, channel
    ensures var run := Command(old(cache.doc), resp, messageType, fetch, now, fetchTime, draw);
      && cache.doc == run.doc
      && channel.log == old(channel.log) + run.sent
      && status == run.status
  {
    var data: seq<Offer>;
    if fetch {
      var r := Refresh(cache, channel, resp, fetchTime);
      if r.Err? { return Raised(r.error); }
      data := r.value;
    } else {
      var doc := cache.Load();
      data := doc.data;
      if |doc.data| == 0 {
        var r := Refresh(cache, channel, resp, fetchTime);
        if r.Err? { return Raised(r.error); }
        data := r.value;
      } else {
        var last := ReadTimestamp(doc.timestamp);
        if last.None? { return Raised(BadTimestamp); }
        if now - last.value >= OneDay {
          var r := Refresh(cache, channel, resp, fetchTime);
          if r.Err? { return Raised(r.error); }
          data := r.value;
        }
      }
    }

    if |data| == 0 {
      channel.Send(Text(NoContentNotice));
      return Completed;
    }
    if messageType == 0 {
      var r := SendMessageSingle(data, draw);
      if r.Err? { return Raised(r.error); }
      channel.SendAll(r.value);
    } else if messageType == 1 {
      var sent := SendMessageMultiple(data);
      channel.SendAll(sent);
    }
    return Completed;
  }
}
