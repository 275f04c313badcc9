/** What the collector's handling of the stream does to the store, stated over
    the specification functions of module Collector. */
module CollectorProperties {
  import opened Wrappers
  import opened Redis
  import opened Collector

  /** Everything one tweet does to the store, under every fault pattern, once
      it encoded to `json`: the record is stored unless the `SET` fails; the
      hashtag is registered when the `SET` and the `SADD` succeed; the entry
      is queued when the `SET` and the `LPUSH` succeed; the counter goes up
      when, in addition, the `INCR` succeeds; no other key changes. */
  lemma TweetEffect(s: Store, hashtag: string, tweet: Tweet, json: string, f: Faults)
    ensures
      var r := AfterTweet(s, hashtag, tweet, Some(json), f);
      var stored := !f.setFails;
      var queued := stored && !f.lpushFails;
      && Get(r, tweet.idStr) == (if stored then Some(json) else Get(s, tweet.idStr))
      && (forall k :: k != tweet.idStr ==> Get(r, k) == Get(s, k))
      && Members(r, HashtagsKey)
         == (if stored && !f.saddFails then Members(s, HashtagsKey) + {hashtag} else Members(s, HashtagsKey))
      && (forall k :: k != HashtagsKey ==> Members(r, k) == Members(s, k))
      && List(r, PubqKey)
         == (if queued then [PubqEntry(hashtag, tweet.idStr)] + List(s, PubqKey) else List(s, PubqKey))
      && (forall k :: k != PubqKey ==> List(r, k) == List(s, k))
      && Count(r, hashtag) == Count(s, hashtag) + (if queued && !f.incrFails then 1 else 0)
      && (forall k :: k != hashtag ==> Count(r, k) == Count(s, k))
  {
    AfterTweetSteps(s, hashtag, tweet, json, f);
  }

  /** With no store errors a tweet causes exactly `SET id json`,
      `SADD hashtags <hashtag>`, `LPUSH pubq <hashtag>:<id>` and
      `INCR <hashtag>`, in that order, and each takes effect. */
  lemma NoFaultsWrites(s: Store, hashtag: string, tweet: Tweet, json: string)
    ensures Attempts(hashtag, tweet, Some(json), NoFaults)
         == [Set(tweet.idStr, json), SAdd("hashtags", hashtag), LPush("pubq", hashtag + ":" + tweet.idStr), Incr(hashtag)]
    ensures
      var r := AfterTweet(s, hashtag, tweet, Some(json), NoFaults);
      && Get(r, tweet.idStr) == Some(json)
      && Members(r, "hashtags") == Members(s, "hashtags") + {hashtag}
      && List(r, "pubq") == [hashtag + ":" + tweet.idStr] + List(s, "pubq")
      && Count(r, hashtag) == Count(s, hashtag) + 1
  {
    TweetEffect(s, hashtag, tweet, json, NoFaults);
  }

  /** A tweet that cannot be encoded causes no command and no change. */
  lemma EncodingFailure(s: Store, hashtag: string, tweet: Tweet, f: Faults)
    ensures Attempts(hashtag, tweet, None, f) == []
    ensures AfterTweet(s, hashtag, tweet, None, f) == s
  {
  }

  /** When the `SET` fails, nothing follows it and the store is as before. */
  lemma SetFailure(s: Store, hashtag: string, tweet: Tweet, json: string, f: Faults)
    requires f.setFails
    ensures Attempts(hashtag, tweet, Some(json), f) == [Set(tweet.idStr, json)]
    ensures AfterTweet(s, hashtag, tweet, Some(json), f) == s
  {
    AfterTweetSteps(s, hashtag, tweet, json, f);
  }

  /** A failed `SADD` does not stop the handler: the `LPUSH` is still sent and
      takes effect if it succeeds, and so does the `INCR` after it. */
  lemma SAddFailureContinues(s: Store, hashtag: string, tweet: Tweet, json: string, f: Faults)
    requires !f.setFails && f.saddFails
    ensures LPush(PubqKey, PubqEntry(hashtag, tweet.idStr)) in Attempts(hashtag, tweet, Some(json), f)
    ensures !f.lpushFails ==> Incr(hashtag) in Attempts(hashtag, tweet, Some(json), f)
    ensures
      var r := AfterTweet(s, hashtag, tweet, Some(json), f);
      && Members(r, HashtagsKey) == Members(s, HashtagsKey)
      && (!f.lpushFails ==> List(r, PubqKey) == [PubqEntry(hashtag, tweet.idStr)] + List(s, PubqKey))
      && (!f.lpushFails && !f.incrFails ==> Count(r, hashtag) == Count(s, hashtag) + 1)
  {
    TweetEffect(s, hashtag, tweet, json, f);
  }

  /** When the `LPUSH` fails the `INCR` is not sent, and the record stored by
      the `SET` (and the hashtag, if the `SADD` succeeded) stay. */
  lemma LPushFailure(s: Store, hashtag: string, tweet: Tweet, json: string, f: Faults)
    requires !f.setFails && f.lpushFails
    ensures Attempts(hashtag, tweet, Some(json), f)
         == [Set(tweet.idStr, json), SAdd(HashtagsKey, hashtag), LPush(PubqKey, PubqEntry(hashtag, tweet.idStr))]
    ensures Incr(hashtag) !in Attempts(hashtag, tweet, Some(json), f)
    ensures
      var r := AfterTweet(s, hashtag, tweet, Some(json), f);
      && Get(r, tweet.idStr) == Some(json)
      && (!f.saddFails ==> hashtag in Members(r, HashtagsKey))
      && List(r, PubqKey) == List(s, PubqKey)
      && Count(r, hashtag) == Count(s, hashtag)
  {
    TweetEffect(s, hashtag, tweet, json, f);
  }

  /** Stream-limit, disconnect and stall-warning messages, and the kinds with
      no handler, send no command and leave the store alone. */
  lemma ControlMessageIgnored(s: Store, hashtag: string, marshal: Tweet -> Option<string>, m: Message, f: Faults)
    requires !m.TweetMessage?
    ensures Sent(hashtag, marshal, m, f) == []
    ensures Dispatch(s, hashtag, marshal, m, f) == s
  {
  }

  /** Handling a stream in two parts, one after the other, is handling it
      whole: each message is handled on the store the previous ones left, and
      its commands follow theirs. */
  lemma {:induction false} RunAppend(s: Store, hashtag: string, marshal: Tweet -> Option<string>,
                                     a: seq<Message>, fa: seq<Faults>, b: seq<Message>, fb: seq<Faults>)
    requires |fa| == |a| && |fb| == |b|
    ensures Run(s, hashtag, marshal, a + b, fa + fb)
         == Run(Run(s, hashtag, marshal, a, fa), hashtag, marshal, b, fb)
    ensures SentAll(hashtag, marshal, a + b, fa + fb)
         == SentAll(hashtag, marshal, a, fa) + SentAll(hashtag, marshal, b, fb)
    decreases |a|
  {
    if a != [] {
      assert (a + b)[1..] == a[1..] + b;
      assert (fa + fb)[1..] == fa[1..] + fb;
      RunAppend(Dispatch(s, hashtag, marshal, a[0], fa[0]), hashtag, marshal, a[1..], fa[1..], b, fb);
    } else {
      assert a + b == b && fa + fb == fb;
    }
  }

  /** A stream with no tweets in it sends no command and changes nothing. */
  lemma {:induction false} ControlStreamIgnored(s: Store, hashtag: string, marshal: Tweet -> Option<string>,
                                                msgs: seq<Message>, faults: seq<Faults>)
    requires |faults| == |msgs|
    requires forall i :: 0 <= i < |msgs| ==> !msgs[i].TweetMessage?
    ensures SentAll(hashtag, marshal, msgs, faults) == []
    ensures Run(s, hashtag, marshal, msgs, faults) == s
    decreases |msgs|
  {
    if msgs != [] {
      ControlStreamIgnored(s, hashtag, marshal, msgs[1..], faults[1..]);
    }
  }

  /** Whether message `m` gets its publish-queue entry under faults `f`. */
  predicate Queues(marshal: Tweet -> Option<string>, m: Message, f: Faults)
  {
    m.TweetMessage? && marshal(m.tweet).Some? && !f.setFails && !f.lpushFails
  }

  /** The publish-queue entries the stream adds, in arrival order. */
  function Queued(hashtag: string, marshal: Tweet -> Option<string>, msgs: seq<Message>, faults: seq<Faults>): seq<string>
    requires |faults| == |msgs|
    decreases |msgs|
  {
    if msgs == [] then []
    else (if Queues(marshal, msgs[0], faults[0]) then [PubqEntry(hashtag, msgs[0].tweet.idStr)] else [])
         + Queued(hashtag, marshal, msgs[1..], faults[1..])
  }

  /** How many of the stream's tweets increment the counter. */
  function Increments(marshal: Tweet -> Option<string>, msgs: seq<Message>, faults: seq<Faults>): nat
    requires |faults| == |msgs|
    decreases |msgs|
  {
    if msgs == [] then 0
    else (if Queues(marshal, msgs[0], faults[0]) && !faults[0].incrFails then 1 else 0)
         + Increments(marshal, msgs[1..], faults[1..])
  }

  function Reversed(q: seq<string>): seq<string>
    decreases |q|
  {
    if q == [] then [] else Reversed(q[1..]) + [q[0]]
  }

  /** The publish queue keeps arrival order: the stream's entries sit ahead of
      the old contents, newest at the head, so a reader taking from the tail
      meets them in the order the tweets arrived. */
  lemma {:induction false} RunQueue(s: Store, hashtag: string, marshal: Tweet -> Option<string>,
                                    msgs: seq<Message>, faults: seq<Faults>)
    requires |faults| == |msgs|
    ensures List(Run(s, hashtag, marshal, msgs, faults), PubqKey)
         == Reversed(Queued(hashtag, marshal, msgs, faults)) + List(s, PubqKey)
    decreases |msgs|
  {
    if msgs != [] {
      var s1 := Dispatch(s, hashtag, marshal, msgs[0], faults[0]);
      RunQueue(s1, hashtag, marshal, msgs[1..], faults[1..]);
      var rest := Queued(hashtag, marshal, msgs[1..], faults[1..]);
      if msgs[0].TweetMessage? && marshal(msgs[0].tweet).Some? {
        var t := msgs[0].tweet;
        TweetEffect(s, hashtag, t, marshal(t).value, faults[0]);
        if Queues(marshal, msgs[0], faults[0]) {
          var e := PubqEntry(hashtag, t.idStr);
          assert ([e] + rest)[1..] == rest;
        } else {
          assert [] + rest == rest;
        }
      } else {
        assert [] + rest == rest;
      }
    }
  }

  /** The counter for the hashtag goes up by exactly the number of tweets
      whose `SET`, `LPUSH` and `INCR` all succeeded. */
  lemma {:induction false} RunCounter(s: Store, hashtag: string, marshal: Tweet -> Option<string>,
                                      msgs: seq<Message>, faults: seq<Faults>)
    requires |faults| == |msgs|
    ensures Count(Run(s, hashtag, marshal, msgs, faults), hashtag)
         == Count(s, hashtag) + Increments(marshal, msgs, faults)
    decreases |msgs|
  {
    if msgs != [] {
      var s1 := Dispatch(s, hashtag, marshal, msgs[0], faults[0]);
      RunCounter(s1, hashtag, marshal, msgs[1..], faults[1..]);
      if msgs[0].TweetMessage? && marshal(msgs[0].tweet).Some? {
        TweetEffect(s, hashtag, msgs[0].tweet, marshal(msgs[0].tweet).value, faults[0]);
      }
    }
  }

  /** The set of hashtags only grows, and only by the collector's hashtag. */
  lemma {:induction false} RunTagSet(s: Store, hashtag: string, marshal: Tweet -> Option<string>,
                                     msgs: seq<Message>, faults: seq<Faults>, key: string)
    requires |faults| == |msgs|
    ensures Members(s, key) <= Members(Run(s, hashtag, marshal, msgs, faults), key)
    ensures Members(Run(s, hashtag, marshal, msgs, faults), key) <= Members(s, key) + {hashtag}
    decreases |msgs|
  {
    if msgs != [] {
      var s1 := Dispatch(s, hashtag, marshal, msgs[0], faults[0]);
      RunTagSet(s1, hashtag, marshal, msgs[1..], faults[1..], key);
      if msgs[0].TweetMessage? && marshal(msgs[0].tweet).Some? {
        TweetEffect(s, hashtag, msgs[0].tweet, marshal(msgs[0].tweet).value, faults[0]);
      }
    }
  }

  /** Handling the same tweet twice with no store errors: the second `SET`
      overwrites the record with the same JSON and the `SADD` changes nothing
      more, but the publish queue gets a second entry and the counter a
      second increment. */
  lemma Redelivery(s: Store, hashtag: string, marshal: Tweet -> Option<string>, tweet: Tweet)
    requires marshal(tweet).Some?
    ensures
      var once := Run(s, hashtag, marshal, [TweetMessage(tweet)], [NoFaults]);
      var twice := Run(s, hashtag, marshal, [TweetMessage(tweet), TweetMessage(tweet)], [NoFaults, NoFaults]);
      var e := PubqEntry(hashtag, tweet.idStr);
      && (forall k :: Get(twice, k) == Get(once, k))
      && (forall k :: Members(twice, k) == Members(once, k))
      && List(twice, PubqKey) == [e, e] + List(s, PubqKey)
      && Count(twice, hashtag) == Count(once, hashtag) + 1 == Count(s, hashtag) + 2
  {
    var json := marshal(tweet).value;
    var once := Dispatch(s, hashtag, marshal, TweetMessage(tweet), NoFaults);
    var twice := Dispatch(once, hashtag, marshal, TweetMessage(tweet), NoFaults);
    TweetEffect(s, hashtag, tweet, json, NoFaults);
    TweetEffect(once, hashtag, tweet, json, NoFaults);
    assert [TweetMessage(tweet), TweetMessage(tweet)][1..] == [TweetMessage(tweet)];
    assert [NoFaults, NoFaults][1..] == [NoFaults];
    assert Run(s, hashtag, marshal, [TweetMessage(tweet)], [NoFaults]) == once;
    assert Run(once, hashtag, marshal, [TweetMessage(tweet)], [NoFaults]) == twice;
    assert Run(s, hashtag, marshal, [TweetMessage(tweet), TweetMessage(tweet)], [NoFaults, NoFaults]) == twice;
    forall k ensures Get(twice, k) == Get(once, k) {
    }
    forall k ensures Members(twice, k) == Members(once, k) {
    }
  }

  /** In an entry built from a hashtag without a colon, the first colon is
      the one right after the hashtag. */
  lemma ColonAfterHashtag(h: string, id: string)
    requires ':' !in h
    ensures PubqEntry(h, id)[|h|] == ':'
    ensures forall i :: 0 <= i < |h| ==> PubqEntry(h, id)[i] != ':'
  {
  }

  /** Under hashtags without a colon, distinct tweets (or hashtags) give
      distinct publish-queue entries: an entry names its hashtag and id. */
  lemma PubqEntryInjective(h1: string, id1: string, h2: string, id2: string)
    requires ':' !in h1 && ':' !in h2
    requires PubqEntry(h1, id1) == PubqEntry(h2, id2)
    ensures h1 == h2 && id1 == id2
  {
    var e := PubqEntry(h1, id1);
    ColonAfterHashtag(h1, id1);
    ColonAfterHashtag(h2, id2);
    assert |h1| == |h2|;
    assert h1 == e[..|h1|] == h2;
    assert id1 == e[|h1| + 1..] == id2;
  }

  /** One tweet, id "100", under hashtag "Go" into an empty store with no
      errors: the record, the hashtag set {"Go"}, the queue ["Go:100"] and a
      count of 1. */
  lemma ScenarioSingleTweet(marshal: Tweet -> Option<string>, json: string)
    requires marshal(Tweet("100", "hello #Go")) == Some(json)
    ensures
      var r := Run(Empty, "Go", marshal, [TweetMessage(Tweet("100", "hello #Go"))], [NoFaults]);
      && Get(r, "100") == Some(json)
      && Members(r, "hashtags") == {"Go"}
      && List(r, "pubq") == ["Go:100"]
      && Count(r, "Go") == 1
  {
    var t := Tweet("100", "hello #Go");
    TweetEffect(Empty, "Go", t, json, NoFaults);
    assert PubqEntry("Go", "100") == "Go:100";
    assert [TweetMessage(t)][1..] == [] && [NoFaults][1..] == [];
  }

  /** Tweets "1" then "2" under "X", the first one's `SET` failing: record
      "1" is absent, the queue holds only "X:2" and the count is 1. */
  lemma ScenarioFirstSetFails(marshal: Tweet -> Option<string>, t1: Tweet, t2: Tweet)
    requires t1.idStr == "1" && t2.idStr == "2"
    requires marshal(t1).Some? && marshal(t2).Some?
    ensures
      var r := Run(Empty, "X", marshal, [TweetMessage(t1), TweetMessage(t2)],
                   [Faults(true, false, false, false), NoFaults]);
      && Get(r, "1") == None
      && List(r, "pubq") == ["X:2"]
      && Count(r, "X") == 1
  {
    var msgs := [TweetMessage(t1), TweetMessage(t2)];
    var faults := [Faults(true, false, false, false), NoFaults];
    var s1 := Dispatch(Empty, "X", marshal, msgs[0], faults[0]);
    var s2 := Dispatch(s1, "X", marshal, msgs[1], faults[1]);
    TweetEffect(Empty, "X", t1, marshal(t1).value, faults[0]);
    TweetEffect(s1, "X", t2, marshal(t2).value, faults[1]);
    assert msgs[1..] == [TweetMessage(t2)] && faults[1..] == [NoFaults];
    assert Run(s1, "X", marshal, msgs[1..], faults[1..]) == s2;
    assert PubqEntry("X", "2") == "X:2";
  }

  /** A stall warning then tweet "5" under "Y": the warning causes nothing,
      the tweet its four commands, and the count is 1. */
  lemma ScenarioStallThenTweet(marshal: Tweet -> Option<string>, w: Message, t: Tweet, json: string)
    requires w.StallWarning? && t.idStr == "5" && marshal(t) == Some(json)
    ensures SentAll("Y", marshal, [w, TweetMessage(t)], [NoFaults, NoFaults])
         == [Set("5", json), SAdd("hashtags", "Y"), LPush("pubq", "Y:5"), Incr("Y")]
    ensures Count(Run(Empty, "Y", marshal, [w, TweetMessage(t)], [NoFaults, NoFaults]), "Y") == 1
  {
    var msgs := [w, TweetMessage(t)];
    var faults := [NoFaults, NoFaults];
    RunCounter(Empty, "Y", marshal, msgs, faults);
    assert msgs[1..] == [TweetMessage(t)] && faults[1..] == [NoFaults];
    assert msgs[1..][1..] == [] && faults[1..][1..] == [];
    assert Increments(marshal, msgs[1..], faults[1..]) == 1;
    NoFaultsWrites(Empty, "Y", t, json);
    assert "Y" + ":" + "5" == "Y:5";
    assert SentAll("Y", marshal, msgs, faults) == [] + SentAll("Y", marshal, msgs[1..], faults[1..]);
    assert SentAll("Y", marshal, msgs[1..], faults[1..]) == Sent("Y", marshal, TweetMessage(t), NoFaults) + [];
  }
}
