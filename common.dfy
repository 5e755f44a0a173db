// Building blocks shared by the two storefront modules: a Result type, the
// Python string operations the bot relies on, Discord messages, the cache
// file, the freshness rule and `random.randrange`.

module Wrappers {

  datatype Option<+T> = None | Some(value: T)

  /** A value, or the exception that the Python code would raise instead. */
  datatype Result<+T, +E> = Ok(value: T) | Err(error: E) {
    predicate IsFailure() {
      Err?
    }

    function PropagateFailure<U>(): Result<U, E>
      requires Err?
    {
      Err(error)
    }

    function Extract(): T
      requires Ok?
    {
      value
    }
  }

  /** `prefix` followed by the list in `r`, or the error of `r`. */
  function Extend<T, E>(prefix: seq<T>, r: Result<seq<T>, E>): Result<seq<T>, E> {
    match r
    case Ok(rest) => Ok(prefix + rest)
    case Err(e) => Err(e)
  }

  lemma ExtendNothing<T, E>(r: Result<seq<T>, E>)
    ensures Extend([], r) == r
  {
    if r.Ok? {
      assert [] + r.value == r.value;
    }
  }

  lemma ExtendTwice<T, E>(a: seq<T>, b: seq<T>, r: Result<seq<T>, E>)
    ensures Extend(a, Extend(b, r)) == Extend(a + b, r)
  {
    if r.Ok? {
      assert a + (b + r.value) == (a + b) + r.value;
    }
  }
}

/** The parts of Python's `str` that the bot uses: `find` and slicing. */
module PyStr {

  /** `s.find(c)`: the index of the first `c` in `s`, or -1 when there is none. */
  function Find(s: string, c: char): (r: int)
    ensures -1 <= r < |s|
    ensures r == -1 <==> c !in s
    ensures 0 <= r ==> s[r] == c && c !in s[..r]
  {
    if |s| == 0 then -1
    else if s[0] == c then 0
    else
      var k := Find(s[1..], c);
      assert s == [s[0]] + s[1..];
      if k == -1 then -1
      else
        assert s[..k + 1] == [s[0]] + s[1..][..k];
        k + 1
  }

  /** A slice bound as Python reads it: negative counts from the end, then clamped to [0, n]. */
  function Bound(i: int, n: nat): nat {
    if i < 0 then (if i + n < 0 then 0 else i + n)
    else if i > n then n
    else i
  }

  /** `s[lo:hi]`. */
  function Slice(s: string, lo: int, hi: int): string {
    var a, b := Bound(lo, |s|), Bound(hi, |s|);
    if a <= b then s[a..b] else []
  }

  /** `s[:stop]`. */
  function Prefix(s: string, stop: int): string {
    s[..Bound(stop, |s|)]
  }
}

/** Discord embeds and a channel, reduced to the values the bot puts in them. */
module Discord {
  import opened Wrappers

  datatype Field = Field(name: string, value: string, inline: bool)

  datatype Embed = Embed(
    title: string,
    url: string,
    thumbnail: string,
    fields: seq<Field>,
    image: Option<string>)

  datatype Message = Text(content: string) | Rich(embed: Embed)

  /** The chat channel: every message still visible in it, oldest first. */
  class Channel {
    var log: seq<Message>

    constructor ()
      ensures log == []
    {
      log := [];
    }

    /** `channel.send`. */
    method Send(m: Message)
      modifies this
      ensures log == old(log) + [m]
    {
      log := log + [m];
    }

    /** Sends the messages one after the other. */
    method SendAll(ms: seq<Message>)
      modifies this
      ensures log == old(log) + ms
    {
      log := log + ms;
    }

    /** `msg.delete()` of the message sent last. */
    method Delete(m: Message)
      requires log != [] && log[|log| - 1] == m
      modifies this
      ensures log == old(log)[..|old(log)| - 1]
    {
      log := log[..|log| - 1];
    }
  }
}

/** The cache file, the clock, the freshness rule and the random pick. */
module Pipeline {
  import opened Wrappers
  import opened Discord

  /** The exceptions that end a command early. */
  datatype Error =
    | TagNotFound        // `find` returned None and was then indexed
    | MissingAttribute   // an HTML tag without the attribute asked for
    | IndexOutOfRange    // `[0]` on an empty JSON list
    | UnboundImage       // `image` read before any wide image was seen
    | BodyNotJson        // `r.json()` or the key path into it failed
    | BadTimestamp       // `strptime` rejected the cached timestamp
    | EmptyRange         // `random.randrange` on an empty range

  /** How a command ended: normally, or with an uncaught exception. */
  datatype Status = Completed | Raised(error: Error)

  /** Timestamps are microseconds on the local clock. */
  const MicrosPerSecond: int := 1_000_000
  const OneDay: int := 24 * 60 * 60 * MicrosPerSecond

  const CheckingNotice := "Let me check what's new. This might take a few seconds."
  const NoContentNotice := "Could not find any content. Please try again later"

  /** The JSON document `{"timestamp": ..., "data": [...]}` kept on disk. */
  datatype CacheDocument<T> = CacheDocument(timestamp: int, data: seq<T>)

  /** The one cache file of a storefront. */
  class CacheFile<T> {
    var doc: CacheDocument<T>

    constructor (initial: CacheDocument<T>)
      ensures doc == initial
    {
      doc := initial;
    }

    /** `save_data_to_json`: overwrites the whole document. */
    method Save(data: seq<T>, now: int)
      modifies this
      ensures doc == CacheDocument(now, data)
    {
      doc := CacheDocument(now, data);
    }

    /** `load_data_from_json`. */
    method Load() returns (d: CacheDocument<T>)
      ensures d == doc
    {
      d := doc;
    }
  }

  /** `strptime(str(t), '%Y-%m-%d %H:%M:%S.%f')`: `str` leaves out the
      fraction when it is zero, and the parse then fails. */
  function ReadTimestamp(t: int): (r: Option<int>)
    ensures r.Some? <==> t % MicrosPerSecond != 0
    ensures r.Some? ==> r.value == t
  {
    if t % MicrosPerSecond == 0 then None else Some(t)
  }

  /** What `handle_cmd` does before formatting. */
  datatype Decision = Refetch | Reuse | Unreadable

  /** The freshness rule of `handle_cmd`: forced, empty, or a day old means fetch. */
  function Freshness<T>(force: bool, doc: CacheDocument<T>, now: int): (d: Decision)
    ensures d == Refetch <==>
      force || |doc.data| == 0 || (doc.timestamp % MicrosPerSecond != 0 && now - doc.timestamp >= OneDay)
    ensures d == Reuse <==>
      !force && |doc.data| != 0 && doc.timestamp % MicrosPerSecond != 0 && now - doc.timestamp < OneDay
  {
    if force || |doc.data| == 0 then Refetch
    else match ReadTimestamp(doc.timestamp)
      case None => Unreadable
      case Some(last) => if now - last >= OneDay then Refetch else Reuse
  }

  /** `random.randrange(start, stop)`, the generator's draw given as `draw`. */
  function RandRange(start: int, stop: int, draw: nat): (r: Result<int, Error>)
    ensures r.Ok? <==> start < stop
    ensures r.Ok? ==> start <= r.value < stop
    ensures r.Err? ==> r.error == EmptyRange
  {
    if stop <= start then Err(EmptyRange) else Ok(start + draw % (stop - start))
  }

  /** Every value of the range is the result of some draw. */
  lemma RandRangeReaches(start: int, stop: int, k: int)
    requires start <= k < stop
    ensures exists draw: nat :: RandRange(start, stop, draw) == Ok(k)
  {
    var draw: nat := k - start;
    assert RandRange(start, stop, draw) == Ok(k);
  }

  /** The outcome of one command: the cache afterwards, the messages left in
      the channel, whether a fetch happened, and how the command ended. */
  datatype Run<T> = Run(doc: CacheDocument<T>, sent: seq<Message>, fetched: bool, status: Status)

  /** Ends a command with the reply the formatters computed, or their exception. */
  function Respond<T>(doc: CacheDocument<T>, reply: Result<seq<Message>, Error>, fetched: bool): Run<T> {
    match reply
    case Ok(ms) => Run(doc, ms, fetched, Completed)
    case Err(e) => Run(doc, [], fetched, Raised(e))
  }
}
