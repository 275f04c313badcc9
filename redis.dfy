/** The part of the Redis command set the collector uses, what a successful
    command does to the server's data, and an in-memory client whose commands
    succeed or fail as the caller says. */
module Redis {
  import opened Wrappers

  /** A command as sent to the server: `SET key value` (no expiry),
      `SADD key member`, `LPUSH key value` and `INCR key`. */
  datatype Command =
    | Set(key: string, value: string)
    | SAdd(key: string, member: string)
    | LPush(key: string, value: string)
    | Incr(key: string)

  /** The server's data, one map per kind of value. */
  datatype Store = Store(
    strings: map<string, string>,
    sets: map<string, set<string>>,
    lists: map<string, seq<string>>,
    counters: map<string, int>)

  /** A server holding no keys. */
  const Empty := Store(map[], map[], map[], map[])

  /** `GET key`: the string stored under `key`, if any. */
  function Get(s: Store, key: string): Option<string>
  {
    if key in s.strings then Some(s.strings[key]) else None
  }

  /** `SMEMBERS key`: a missing key reads as the empty set. */
  function Members(s: Store, key: string): set<string>
  {
    if key in s.sets then s.sets[key] else {}
  }

  /** `LRANGE key 0 -1`, head first: a missing key reads as the empty list. */
  function List(s: Store, key: string): seq<string>
  {
    if key in s.lists then s.lists[key] else []
  }

  /** The counter under `key`: a missing key reads as 0, as `INCR` treats it. */
  function Count(s: Store, key: string): int
  {
    if key in s.counters then s.counters[key] else 0
  }

  /** The effect of one command that the server carries out: `SET` makes a
      later `GET` of its key return the value, `SADD` adds the member to the
      set, `LPUSH` puts the value at the head of the list, `INCR` adds one to
      the counter, and nothing else changes. */
  function Exec(s: Store, c: Command): (r: Store)
    ensures c.Set? ==>
      Get(r, c.key) == Some(c.value) &&
      (forall k :: k != c.key ==> Get(r, k) == Get(s, k)) &&
      r.sets == s.sets && r.lists == s.lists && r.counters == s.counters
    ensures c.SAdd? ==>
      Members(r, c.key) == Members(s, c.key) + {c.member} &&
      (forall k :: k != c.key ==> Members(r, k) == Members(s, k)) &&
      r.strings == s.strings && r.lists == s.lists && r.counters == s.counters
    ensures c.LPush? ==>
      List(r, c.key) == [c.value] + List(s, c.key) &&
      (forall k :: k != c.key ==> List(r, k) == List(s, k)) &&
      r.strings == s.strings && r.sets == s.sets && r.counters == s.counters
    ensures c.Incr? ==>
      Count(r, c.key) == Count(s, c.key) + 1 &&
      (forall k :: k != c.key ==> Count(r, k) == Count(s, k)) &&
      r.strings == s.strings && r.sets == s.sets && r.lists == s.lists
  {
    match c
    case Set(k, v) => s.(strings := s.strings[k := v])
    case SAdd(k, m) => s.(sets := s.sets[k := Members(s, k) + {m}])
    case LPush(k, v) => s.(lists := s.lists[k := [v] + List(s, k)])
    case Incr(k) => s.(counters := s.counters[k := Count(s, k) + 1])
  }

  /** A connection to the server. Each command method is told, through
      `fails`, whether the server or the network reports an error for it; a
      command that fails leaves the data as it was. Every command, failed or
      not, is recorded in `sent`. */
  class Client {
    var strings: map<string, string>
    var sets: map<string, set<string>>
    var lists: map<string, seq<string>>
    var counters: map<string, int>
    /** The commands sent so far, in order. */
    var sent: seq<Command>

    /** The server's data as one value. */
    function State(): Store
      reads this
    {
      Store(strings, sets, lists, counters)
    }

    constructor ()
      ensures State() == Empty && sent == []
    {
      strings, sets, lists, counters := map[], map[], map[], map[];
      sent := [];
    }

    method Set(key: string, value: string, fails: bool) returns (err: bool)
      modifies this
      ensures err == fails
      ensures sent == old(sent) + [Command.Set(key, value)]
      ensures State() == if fails then old(State()) else Exec(old(State()), Command.Set(key, value))
    {
      sent := sent + [Command.Set(key, value)];
      err := fails;
      if !err {
        strings := strings[key := value];
      }
    }

    method SAdd(key: string, member: string, fails: bool) returns (err: bool)
      modifies this
      ensures err == fails
      ensures sent == old(sent) + [Command.SAdd(key, member)]
      ensures State() == if fails then old(State()) else Exec(old(State()), Command.SAdd(key, member))
    {
      sent := sent + [Command.SAdd(key, member)];
      err := fails;
      if !err {
        var members := if key in sets then sets[key] else {};
        sets := sets[key := members + {member}];
      }
    }

    method LPush(key: string, value: string, fails: bool) returns (err: bool)
      modifies this
      ensures err == fails
      ensures sent == old(sent) + [Command.LPush(key, value)]
      ensures State() == if fails then old(State()) else Exec(old(State()), Command.LPush(key, value))
    {
      sent := sent + [Command.LPush(key, value)];
      err := fails;
      if !err {
        var list := if key in lists then lists[key] else [];
        lists := lists[key := [value] + list];
      }
    }

    method Incr(key: string, fails: bool) returns (err: bool)
      modifies this
      ensures err == fails
      ensures sent == old(sent) + [Command.Incr(key)]
      ensures State() == if fails then old(State()) else Exec(old(State()), Command.Incr(key))
    {
      sent := sent + [Command.Incr(key)];
      err := fails;
      if !err {
        var n := if key in counters then counters[key] else 0;
        counters := counters[key := n + 1];
      }
    }
  }
}
