# tweet2redis, modelled in Dafny

tweet2redis follows the Twitter filter stream for one hashtag and writes every
tweet it receives into Redis. For each tweet the stream handler sends a fixed
sequence of commands: it encodes the tweet as JSON, stores it with
`SET <id> <json>`, registers the hashtag with `SADD hashtags <hashtag>`, queues
the tweet for publishing with `LPUSH pubq <hashtag>:<id>` and counts it with
`INCR <hashtag>`. A failed encoding, `SET` or `LPUSH` ends the handler for that
tweet. A failed `SADD` or `INCR` is only reported. Stream-limit, disconnect and
stall-warning messages are only logged. Messages are handled one at a time, in
arrival order. At start-up the process resolves the Redis host and port, the
hashtag and the Twitter credentials from the environment and the command line.

The model has five modules:

- `Wrappers` (wrappers.dfy): the `Option` type.
- `Redis` (redis.dfy): the four commands and what a successful one does to the
  server's data (`Exec`). It also holds the `Client` class, whose fields are
  the server's strings, sets, lists and counters plus the log `sent` of every
  command sent. Each command method takes a `fails` flag: the server or the
  network decides whether a command fails, so the model makes it a parameter.
- `Collector` (collector.dfy): tweets and stream messages, and the handler's
  specification. `Attempts` gives the commands sent for a tweet under a fault
  pattern. `AfterTweet`, `Dispatch` and `Run` give the data after a tweet, a
  message and a stream. The imperative handler `HandleTweet`, the demultiplexer
  `Handle` and the loop `Consume` are proved to match them.
- `CollectorProperties` (collector_properties.dfy): the properties of that
  specification.
- `Startup` (startup.dfy): configuration resolution.

Inputs the program gets from outside are parameters:

- `json.Marshal` is `marshal: Tweet -> Option<string>`, an opaque function.
- `strconv.Atoi` is `atoi: string -> Option<int>`.
- Which Redis commands fail is a `Faults` value per message (`faults[i]` for
  message `i`).
- The environment variables are an `Env` record.

The publish-queue entry is pushed at the HEAD of the list (`LPUSH`). A reader
therefore takes entries from the tail to see them in arrival order.

## Model

| member | source | states |
|---|---|---|
| `Redis.Exec` | tweet2redis.go:111-128 | A successful `SET` makes `GET` of its key return the value. `SADD` adds the member to the set. `LPUSH` puts the value at the head of the list. `INCR` adds one to the counter, and a missing counter counts as 0. No other key and no other kind of data changes. |
| `Redis.Client.Set` | tweet2redis.go:111 | `SET` is recorded as sent. It reports an error exactly when the server fails it. It changes the data as `Exec` says, or not at all when it fails. |
| `Redis.Client.SAdd` | tweet2redis.go:116 | The same as `Set`, for `SADD`. |
| `Redis.Client.LPush` | tweet2redis.go:120 | The same as `Set`, for `LPUSH`. |
| `Redis.Client.Incr` | tweet2redis.go:125 | The same as `Set`, for `INCR`. |
| `Collector.AfterTweetSteps` | tweet2redis.go:105-130 | A tweet's effect is the chain of single-command steps. It stops after the `SET` when the `SET` fails, and after the `LPUSH` when the `LPUSH` fails. Otherwise it runs through the `INCR`. |
| `Collector.HandleTweet` | tweet2redis.go:105-130 | The imperative handler, with its early returns, sends exactly `Attempts(...)`. It leaves the data at `AfterTweet(...)`. |
| `Collector.Handle` | tweet2redis.go:131-139 | Dispatch: a tweet goes to the tweet handler. Every other kind sends nothing and leaves the data alone. |
| `Collector.Consume` | tweet2redis.go:148-152 | The loop handles the messages in arrival order, each one to completion before the next. It sends `SentAll(...)` and leaves the data at `Run(...)`. |
| `CollectorProperties.TweetEffect` | tweet2redis.go:105-130 | The complete effect of one encoded tweet under every fault pattern. The record is stored iff the `SET` succeeds. The hashtag is registered iff the `SET` and `SADD` succeed. The entry is queued iff the `SET` and `LPUSH` succeed. The counter goes up by 1 iff those and the `INCR` succeed. Every other key is unchanged. |
| `CollectorProperties.NoFaultsWrites` | tweet2redis.go:105-130 | With no failures, the tweet sends exactly `SET id json`, `SADD "hashtags" tag`, `LPUSH "pubq" tag:id` and `INCR tag`, in that order. Each one takes effect. |
| `CollectorProperties.EncodingFailure` | tweet2redis.go:106-110 | A tweet that cannot be encoded sends no command and leaves the store unchanged. |
| `CollectorProperties.SetFailure` | tweet2redis.go:111-115 | When the `SET` fails, only the `SET` is sent, and the store is unchanged. |
| `CollectorProperties.SAddFailureContinues` | tweet2redis.go:116-124 | A failed `SADD` still lets the `LPUSH` be sent, and the `INCR` after a successful `LPUSH`. The set of hashtags stays as it was. The queue is updated when the `LPUSH` succeeds, and the counter when the `INCR` also succeeds. |
| `CollectorProperties.LPushFailure` | tweet2redis.go:120-124 | When the `LPUSH` fails, no `INCR` is sent. The stored record, and the hashtag when the `SADD` succeeded, stay. The queue and the counter are unchanged. |
| `CollectorProperties.ControlMessageIgnored` | tweet2redis.go:131-139 | Stream-limit, disconnect, stall-warning and unhandled messages send no command and leave the store unchanged. |
| `CollectorProperties.ControlStreamIgnored` | tweet2redis.go:131-139 | A stream without tweets sends nothing and changes nothing. |
| `CollectorProperties.RunAppend` | tweet2redis.go:148-152 | Handling a stream in two parts, one after the other, gives the same store and the same command order as handling it whole. |
| `CollectorProperties.RunQueue` | tweet2redis.go:120-124 | After a stream, the publish queue holds the entries of the tweets whose `SET` and `LPUSH` succeeded, newest first, ahead of its old contents. So arrival order is kept from the tail. |
| `CollectorProperties.RunCounter` | tweet2redis.go:125-128 | The hashtag's counter goes up by exactly the number of tweets whose `SET`, `LPUSH` and `INCR` all succeeded. |
| `CollectorProperties.RunTagSet` | tweet2redis.go:116-119 | Every set only grows, and only by the collector's hashtag. |
| `CollectorProperties.Redelivery` | tweet2redis.go:111-128 | With no store errors and a tweet that encodes, handling it twice leaves the same records and sets as handling it once. The queue gets two entries and the counter goes up by two. |
| `CollectorProperties.PubqEntryInjective` | tweet2redis.go:120 | For hashtags without a colon, equal queue entries have equal hashtags and equal ids. |
| `CollectorProperties.ScenarioSingleTweet` | tweet2redis.go:105-130 | Tweet "100" under "Go" into an empty store gives the record, the hashtags {"Go"}, the queue ["Go:100"] and a count of 1. |
| `CollectorProperties.ScenarioFirstSetFails` | tweet2redis.go:111-115 | Tweets "1" and "2" under "X", where the first `SET` fails: record "1" is absent, the queue is ["X:2"] and the count is 1. |
| `CollectorProperties.ScenarioStallThenTweet` | tweet2redis.go:105-139 | A stall warning then tweet "5" under "Y" sends exactly the tweet's four commands, and the count is 1. |
| `Startup.Resolve` | tweet2redis.go:50-76 | The process exits with status 1 iff a Twitter credential is empty. Otherwise: the host is `REDIS_HOST`, or "localhost" when that is empty, so it is never empty. The port is 6379 unless `REDIS_PORT` is non-empty and parses. The hashtag is the first argument, or "OpenStackSummit". The credentials are passed on. |

## Left out

- OAuth1 signing and the HTTP and Twitter clients (tweet2redis.go:77-84) are calls into foreign libraries.
- Opening the filter stream (tweet2redis.go:140-147), connecting to Redis and its `Ping` (tweet2redis.go:156-165), and the `Fatalf` on a failed connection (tweet2redis.go:86-89) are network I/O.
- When the filter stream cannot be opened, `main` only logs the error (tweet2redis.go:91-94), then waits for the signal and calls `Stop` on a nil stream (tweet2redis.go:100). This error path is process lifecycle and is not modelled.
- Waiting for SIGINT/SIGTERM and `stream.Stop()` (tweet2redis.go:95-100) are process lifecycle.
- The goroutine and channel of the message loop (tweet2redis.go:148-152) are modelled only as their sequential, one-message-at-a-time meaning: a loop over a finite sequence.
- Reading the environment in `init` (tweet2redis.go:35-44) is replaced by the `Env` parameter of `Startup.Resolve`.
- The internals of `json.Marshal` and `strconv.Atoi` are parameters.
- Logging is left out: the messages, their levels, and the port warning at tweet2redis.go:58.
- `Redis.Exec`: Redis keeps strings, sets, lists and counters in one keyspace. The model keeps one map per kind. So a clash between keys is not modelled. For example, `INCR` on a hashtag that equals a stored tweet id gives a "not an integer" error in Redis. Such an error shows up in the model only as the step's fault flag.
- `Redis.Exec`: the 64-bit overflow error of `INCR` is not modelled; counters are unbounded integers. A fault flag can stand for it.
- `Redis.Client.Set`, `Redis.Client.SAdd`, `Redis.Client.LPush`, `Redis.Client.Incr`: a command that reports an error is modelled as not carried out. The Redis client also reports an error when the connection fails or times out after the server has already run the command; that case is not modelled, because the outcome is then unknown to the collector and the program does not distinguish it. The "store unchanged" parts of `CollectorProperties.SetFailure`, `CollectorProperties.LPushFailure` and `CollectorProperties.TweetEffect`, and the absent record in `CollectorProperties.ScenarioFirstSetFails`, rest on this.
- The store is modelled as written only by this collector. Other collectors following the same hashtag share the hashtag set and the counter, and downstream readers pop `pubq`. The exact queue and counter values proved by `CollectorProperties.RunQueue`, `CollectorProperties.RunCounter`, `CollectorProperties.Redelivery` and the scenario lemmas hold only when no other client writes those keys during the run.
- `Startup.Resolve`: the port is not range-checked, as in the source. Which integers `atoi` accepts is up to the parameter.
