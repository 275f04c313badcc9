/** The collector's stream handling: the message kinds the stream delivers, the
    fixed sequence of store commands run for each tweet with its early returns,
    and the loop that hands messages to the dispatcher one at a time. */
module Collector {
  import opened Wrappers
  import opened Redis

  /** The set of every hashtag ever collected. */
  const HashtagsKey := "hashtags"
  /** The publish queue: entries pushed at the head, read from the tail. */
  const PubqKey := "pubq"

  /** A tweet. Only its string id is read by the collector; the rest of its
      content reaches the store only through the JSON encoding. */
  datatype Tweet = Tweet(idStr: string, text: string)

  /** A message from the filtered stream, as the demultiplexer sorts them.
      `Unhandled` stands for every kind with no handler registered (deletion
      notices, direct messages, events, unknown shapes): it is dropped. */
  datatype Message =
    | TweetMessage(tweet: Tweet)
    | StreamLimit(track: int)
    | StreamDisconnect(code: int, streamName: string, reason: string)
    | StallWarning(stallCode: string, message: string, percentFull: int)
    | Unhandled

  /** Which of the store commands for one tweet report an error. */
  datatype Faults = Faults(setFails: bool, saddFails: bool, lpushFails: bool, incrFails: bool)

  /** A store that never reports an error. */
  const NoFaults := Faults(false, false, false, false)

  /** The publish-queue entry `<hashtag>:<id>`. */
  function PubqEntry(hashtag: string, id: string): string
  {
    hashtag + ":" + id
  }

  /** Whether the store reports an error for command `c` under `f`. */
  function Fails(f: Faults, c: Command): bool
  {
    match c
    case Set(_, _) => f.setFails
    case SAdd(_, _) => f.saddFails
    case LPush(_, _) => f.lpushFails
    case Incr(_) => f.incrFails
  }

  /** The commands the tweet handler sends for `tweet`, in order, when its
      JSON encoding came out as `encoded`: nothing when encoding failed; only
      the `SET` when that fails; the `SADD` is followed by the `LPUSH` whatever
      its outcome; the `INCR` only when the `LPUSH` succeeded. */
  function Attempts(hashtag: string, tweet: Tweet, encoded: Option<string>, f: Faults): seq<Command>
  {
    match encoded
    case None => []
    case Some(json) =>
      var store := Set(tweet.idStr, json);
      var sadd := SAdd(HashtagsKey, hashtag);
      var lpush := LPush(PubqKey, PubqEntry(hashtag, tweet.idStr));
      if f.setFails then [store]
      else if f.lpushFails then [store, sadd, lpush]
      else [store, sadd, lpush, Incr(hashtag)]
  }

  /** The data after the server receives `cs` in order, carrying out every
      command that does not fail under `f`. */
  function ApplyAll(s: Store, cs: seq<Command>, f: Faults): Store
    decreases |cs|
  {
    if cs == [] then s
    else ApplyAll(Step(s, cs[0], f), cs[1..], f)
  }

  /** The data after the server receives one command, which it carries out
      unless it fails under `f`. */
  function Step(s: Store, c: Command, f: Faults): Store
  {
    if Fails(f, c) then s else Exec(s, c)
  }

  lemma ApplyAllCons(s: Store, c: Command, rest: seq<Command>, f: Faults)
    ensures ApplyAll(s, [c] + rest, f) == ApplyAll(Step(s, c, f), rest, f)
  {
  }

  /** The data after the tweet handler ran on `tweet`. */
  function AfterTweet(s: Store, hashtag: string, tweet: Tweet, encoded: Option<string>, f: Faults): Store
  {
    ApplyAll(s, Attempts(hashtag, tweet, encoded, f), f)
  }

  /** The commands sent for message `m`: only a tweet causes any. */
  function Sent(hashtag: string, marshal: Tweet -> Option<string>, m: Message, f: Faults): seq<Command>
  {
    match m
    case TweetMessage(t) => Attempts(hashtag, t, marshal(t), f)
    case _ => []
  }

  /** The data after the dispatcher handled message `m`: stream-limit,
      disconnect and stall-warning messages are only logged, and unhandled
      kinds are dropped. */
  function Dispatch(s: Store, hashtag: string, marshal: Tweet -> Option<string>, m: Message, f: Faults): Store
  {
    match m
    case TweetMessage(t) => AfterTweet(s, hashtag, t, marshal(t), f)
    case _ => s
  }

  /** The data after the messages `msgs` were dispatched in arrival order,
      message `i` meeting the store faults `faults[i]`. */
  function Run(s: Store, hashtag: string, marshal: Tweet -> Option<string>, msgs: seq<Message>, faults: seq<Faults>): Store
    requires |faults| == |msgs|
    decreases |msgs|
  {
    if msgs == [] then s
    else Run(Dispatch(s, hashtag, marshal, msgs[0], faults[0]), hashtag, marshal, msgs[1..], faults[1..])
  }

  /** The commands sent while dispatching `msgs`, in order. */
  function SentAll(hashtag: string, marshal: Tweet -> Option<string>, msgs: seq<Message>, faults: seq<Faults>): seq<Command>
    requires |faults| == |msgs|
    decreases |msgs|
  {
    if msgs == [] then []
    else Sent(hashtag, marshal, msgs[0], faults[0]) + SentAll(hashtag, marshal, msgs[1..], faults[1..])
  }

  /** `AfterTweet` as the chain of single-command steps the handler takes. */
  lemma AfterTweetSteps(s: Store, hashtag: string, tweet: Tweet, json: string, f: Faults)
    ensures
      var s1 := Step(s, Set(tweet.idStr, json), f);
      var s2 := Step(s1, SAdd(HashtagsKey, hashtag), f);
      var s3 := Step(s2, LPush(PubqKey, PubqEntry(hashtag, tweet.idStr)), f);
      AfterTweet(s, hashtag, tweet, Some(json), f)
        == if f.setFails then s1
           else if f.lpushFails then s3
           else Step(s3, Incr(hashtag), f)
  {
    var store, sadd := Set(tweet.idStr, json), SAdd(HashtagsKey, hashtag);
    var lpush, incr := LPush(PubqKey, PubqEntry(hashtag, tweet.idStr)), Incr(hashtag);
    var s1 := Step(s, store, f);
    var s2 := Step(s1, sadd, f);
    var s3 := Step(s2, lpush, f);
    if f.setFails {
      assert [store] == [store] + [];
      ApplyAllCons(s, store, [], f);
    } else if f.lpushFails {
      assert [store, sadd, lpush] == [store] + ([sadd] + ([lpush] + []));
      ApplyAllCons(s, store, [sadd] + ([lpush] + []), f);
      ApplyAllCons(s1, sadd, [lpush] + [], f);
      ApplyAllCons(s2, lpush, [], f);
    } else {
      assert [store, sadd, lpush, incr] == [store] + ([sadd] + ([lpush] + ([incr] + [])));
      ApplyAllCons(s, store, [sadd] + ([lpush] + ([incr] + [])), f);
      ApplyAllCons(s1, sadd, [lpush] + ([incr] + []), f);
      ApplyAllCons(s2, lpush, [incr] + [], f);
      ApplyAllCons(s3, incr, [], f);
    }
  }

  /** The tweet handler: encode the tweet, store it under its id, register
      the hashtag, queue `<hashtag>:<id>` for publishing and count it. A
      failed encoding, `SET` or `LPUSH` ends the handler; a failed `SADD` or
      `INCR` is only reported. */
  method HandleTweet(rd: Client, hashtag: string, marshal: Tweet -> Option<string>, tweet: Tweet, f: Faults)
    modifies rd
    ensures rd.sent == old(rd.sent) + Attempts(hashtag, tweet, marshal(tweet), f)
    ensures rd.State() == AfterTweet(old(rd.State()), hashtag, tweet, marshal(tweet), f)
  {
    var b := marshal(tweet);
    if b.None? {
      return;
    }
    AfterTweetSteps(rd.State(), hashtag, tweet, b.value, f);
    var err := rd.Set(tweet.idStr, b.value, f.setFails);
    if err {
      return;
    }
    err := rd.SAdd(HashtagsKey, hashtag, f.saddFails);
    err := rd.LPush(PubqKey, PubqEntry(hashtag, tweet.idStr), f.lpushFails);
    if err {
      return;
    }
    err := rd.Incr(hashtag, f.incrFails);
  }

  /** The demultiplexer: a tweet goes to the tweet handler; the other kinds
      are logged or dropped and leave the store alone. */
  method Handle(rd: Client, hashtag: string, marshal: Tweet -> Option<string>, m: Message, f: Faults)
    modifies rd
    ensures rd.sent == old(rd.sent) + Sent(hashtag, marshal, m, f)
    ensures rd.State() == Dispatch(old(rd.State()), hashtag, marshal, m, f)
  {
    match m
    case TweetMessage(t) =>
      HandleTweet(rd, hashtag, marshal, t, f);
    case _ =>
  }

  /** The consuming loop: every message is handled to completion before the
      next one, in arrival order. */
  method Consume(rd: Client, hashtag: string, marshal: Tweet -> Option<string>, msgs: seq<Message>, faults: seq<Faults>)
    requires |faults| == |msgs|
    modifies rd
    ensures rd.sent == old(rd.sent) + SentAll(hashtag, marshal, msgs, faults)
    ensures rd.State() == Run(old(rd.State()), hashtag, marshal, msgs, faults)
  {
    ghost var s0, sent0 := rd.State(), rd.sent;
    var i := 0;
    while i < |msgs|
      invariant 0 <= i <= |msgs|
      invariant sent0 + SentAll(hashtag, marshal, msgs, faults)
             == rd.sent + SentAll(hashtag, marshal, msgs[i..], faults[i..])
      invariant Run(s0, hashtag, marshal, msgs, faults)
             == Run(rd.State(), hashtag, marshal, msgs[i..], faults[i..])
    {
      RunAt(rd.State(), hashtag, marshal, msgs, faults, i);
      SentAt(rd.sent, hashtag, marshal, msgs, faults, i);
      Handle(rd, hashtag, marshal, msgs[i], faults[i]);
      i := i + 1;
    }
    assert msgs[i..] == [] && faults[i..] == [];
  }

  /** Unfolds `Run` and `SentAll` at position `i` of the stream. */
  lemma RunAt(s: Store, hashtag: string, marshal: Tweet -> Option<string>, msgs: seq<Message>, faults: seq<Faults>, i: nat)
    requires |faults| == |msgs| && i < |msgs|
    ensures Run(s, hashtag, marshal, msgs[i..], faults[i..])
         == Run(Dispatch(s, hashtag, marshal, msgs[i], faults[i]), hashtag, marshal, msgs[i + 1..], faults[i + 1..])
    ensures SentAll(hashtag, marshal, msgs[i..], faults[i..])
         == Sent(hashtag, marshal, msgs[i], faults[i]) + SentAll(hashtag, marshal, msgs[i + 1..], faults[i + 1..])
  {
  }

  /** The commands already sent followed by those of `msgs[i..]` are those
      sent up to and including message `i` followed by the rest. */
  lemma SentAt(done: seq<Command>, hashtag: string, marshal: Tweet -> Option<string>, msgs: seq<Message>, faults: seq<Faults>, i: nat)
    requires |faults| == |msgs| && i < |msgs|
    ensures done + SentAll(hashtag, marshal, msgs[i..], faults[i..])
         == (done + Sent(hashtag, marshal, msgs[i], faults[i])) + SentAll(hashtag, marshal, msgs[i + 1..], faults[i + 1..])
  {
    RunAt(Empty, hashtag, marshal, msgs, faults, i);
  }
}
