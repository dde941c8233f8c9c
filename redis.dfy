/**
 * The per-user history store: a Redis server holding one list of strings per
 * user id, and the `RedisService` that reads and updates it.
 *
 * The server is modelled by the documented meaning of the four list commands
 * the service issues (LRANGE, RPUSH, LTRIM, DEL); the service adds the Python
 * slice of a read and swallows connection errors.
 */
module Redis {
  import opened PyText

  /** The keys that hold lists, each list oldest entry first. */
  type Keyspace = map<string, seq<string>>

  /** Redis never keeps an empty list: a key whose list empties is removed. */
  predicate NoEmptyLists(m: Keyspace)
  {
    forall k :: k in m ==> m[k] != []
  }

  /** The list at `key`; a missing key reads as the empty list. */
  function Stored(m: Keyspace, key: string): seq<string>
  {
    if key in m then m[key] else []
  }

  /** A Redis list index: a negative one counts from the tail, -1 being the last element. */
  function Resolve(i: int, len: nat): int
  {
    if i < 0 then len + i else i
  }

  /**
   * LRANGE key start stop: the elements from `start` to `stop` inclusive.
   * Out-of-range indexes are no error: a start before the head means the head,
   * a stop past the tail means the tail, and an empty range gives [].
   */
  function LRange(m: Keyspace, key: string, start: int, stop: int): (r: seq<string>)
    ensures |r| <= |Stored(m, key)|
  {
    var h := Stored(m, key);
    var s := Max(Resolve(start, |h|), 0);
    var e := Min(Resolve(stop, |h|), |h| - 1);
    if s > e then [] else h[s..e + 1]
  }

  /** RPUSH key v1 v2 ...: append the values at the tail, creating the list if needed. */
  function RPush(m: Keyspace, key: string, values: seq<string>): (r: Keyspace)
    requires values != []
    ensures Stored(r, key) == Stored(m, key) + values
    ensures forall k :: k != key ==> Stored(r, k) == Stored(m, k)
    ensures NoEmptyLists(m) ==> NoEmptyLists(r)
  {
    m[key := Stored(m, key) + values]
  }

  /** LTRIM key start stop: keep exactly what LRANGE with the same indexes returns; an empty result deletes the key. */
  function LTrim(m: Keyspace, key: string, start: int, stop: int): (r: Keyspace)
    ensures Stored(r, key) == LRange(m, key, start, stop)
    ensures forall k :: k != key ==> Stored(r, k) == Stored(m, k)
    ensures NoEmptyLists(m) ==> NoEmptyLists(r)
  {
    var kept := LRange(m, key, start, stop);
    if kept == [] then m - {key} else m[key := kept]
  }

  /** DEL key: remove the key. */
  function Del(m: Keyspace, key: string): (r: Keyspace)
    ensures key !in r && Stored(r, key) == []
    ensures forall k :: k != key ==> Stored(r, k) == Stored(m, k)
    ensures NoEmptyLists(m) ==> NoEmptyLists(r)
  {
    m - {key}
  }

  /** The read window of `get_user_history`: the Python slice `history[-max_length:]`. */
  function Window(history: seq<string>, maxLength: int): seq<string>
  {
    SliceFrom(history, -maxLength)
  }

  /** The size bound the service uses when a caller gives none. */
  const DefaultMaxLength := 5

  /** LRANGE key 0 -1 reads the whole list. */
  lemma RangeAll(m: Keyspace, key: string)
    ensures LRange(m, key, 0, -1) == Stored(m, key)
  {
  }

  /**
   * `ltrim(key, -n, -1)` leaves exactly the list that `history[-n:]` reads, for
   * every integer `n` — including `n == 0`, where both keep the whole list.
   */
  lemma TrimMatchesWindow(m: Keyspace, key: string, n: int)
    ensures Stored(LTrim(m, key, -n, -1), key) == Window(Stored(m, key), n)
  {
    var h := Stored(m, key);
    if n > 0 {
      LastEntries(h, n);
    }
  }

  /** A window of size `n >= 1` is the last `min(n, |h|)` entries, oldest first. */
  lemma WindowIsLastEntries(h: seq<string>, n: int)
    requires n >= 1
    ensures Window(h, n) == h[|h| - Min(n, |h|)..]
    ensures |Window(h, n)| == Min(n, |h|) <= n
  {
    LastEntries(h, n);
  }

  /** With `n == 0`, `history[-0:]` is `history[0:]`: the whole list, not none of it. */
  lemma WindowZeroKeepsAll(h: seq<string>)
    ensures Window(h, 0) == h
  {
  }

  /** Trimming to the last `n` entries twice keeps the same list as trimming once. */
  lemma TrimIdempotent(m: Keyspace, key: string, n: int)
    requires n >= 0
    ensures LTrim(LTrim(m, key, -n, -1), key, -n, -1) == LTrim(m, key, -n, -1)
  {
    var once := LTrim(m, key, -n, -1);
    TrimMatchesWindow(m, key, n);
    TrimMatchesWindow(once, key, n);
    var h := Stored(m, key);
    if n > 0 {
      LastEntries(h, n);
      LastEntries(Stored(once, key), n);
    }
    var twice := LTrim(once, key, -n, -1);
    assert Stored(twice, key) == Stored(once, key);
    assert forall k :: k in twice <==> k in once;
  }

  /** On a store Redis could hold, trimming a list that already has at most `n` entries changes nothing. */
  lemma TrimShortIsNoOp(m: Keyspace, key: string, n: int)
    requires NoEmptyLists(m)
    requires n >= 0 && |Stored(m, key)| <= n
    ensures LTrim(m, key, -n, -1) == m
  {
    var h := Stored(m, key);
    assert Max(Resolve(-n, |h|), 0) == 0;
    assert Min(Resolve(-1, |h|), |h| - 1) == |h| - 1;
    assert h[0..|h|] == h;
    assert LRange(m, key, -n, -1) == h;
    if key in m {
      assert h != [];
      assert m[key := h] == m;
    } else {
      assert h == [];
      assert m - {key} == m;
    }
  }

  /**
   * Whether the Redis server answers each round trip one event makes. A call
   * that is not answered raises a connection error, which the service logs and
   * swallows; the server then has not applied it.
   */
  datatype Reachability = Reachability(fetch: bool, trim: bool, add: bool, addAgain: bool)

  /** `RedisService`: the client the bots share, over the server's keyspace. */
  class RedisService {
    /** The lists the server holds. */
    var lists: Keyspace

    ghost predicate Valid()
      reads this
    {
      NoEmptyLists(lists)
    }

    /** A service connected to a server that already holds `initial`. */
    constructor (initial: Keyspace)
      requires NoEmptyLists(initial)
      ensures Valid() && lists == initial
    {
      lists := initial;
    }

    /**
     * `get_user_history`: the last `maxLength` entries (by Python slicing), or
     * nothing for an unknown user or when the server does not answer.
     */
    method GetUserHistory(userId: string, maxLength: int, up: bool) returns (history: seq<string>)
      ensures history == if up then Window(Stored(lists, userId), maxLength) else []
      ensures up && maxLength >= 1 ==> history == Stored(lists, userId)[|Stored(lists, userId)| - Min(maxLength, |Stored(lists, userId)|)..]
      ensures userId !in lists ==> history == []
    {
      if up {
        var all := LRange(lists, userId, 0, -1);
        RangeAll(lists, userId);
        history := SliceFrom(all, -maxLength);
        if maxLength >= 1 {
          WindowIsLastEntries(all, maxLength);
        }
      } else {
        history := [];
      }
    }

    /** `add_to_user_history`: RPUSH of the "User: " entry and then the "Bot: " entry. */
    method AddToUserHistory(userId: string, userMessage: string, botResponse: string, up: bool)
      requires Valid()
      modifies this
      ensures Valid()
      ensures up ==> lists == RPush(old(lists), userId, ["User: " + userMessage, "Bot: " + botResponse])
      ensures up ==> Stored(lists, userId) == Stored(old(lists), userId) + ["User: " + userMessage, "Bot: " + botResponse]
      ensures !up ==> lists == old(lists)
    {
      if up {
        lists := RPush(lists, userId, ["User: " + userMessage, "Bot: " + botResponse]);
      }
    }

    /** `trim_history`: LTRIM key -maxLength -1. */
    method TrimHistory(userId: string, maxLength: int, up: bool)
      requires Valid()
      modifies this
      ensures Valid()
      ensures up ==> lists == LTrim(old(lists), userId, -maxLength, -1)
      ensures up ==> Stored(lists, userId) == Window(Stored(old(lists), userId), maxLength)
      ensures !up ==> lists == old(lists)
    {
      if up {
        TrimMatchesWindow(lists, userId, maxLength);
        lists := LTrim(lists, userId, -maxLength, -1);
      }
    }

    /** `clear_history`: DEL key. */
    method ClearHistory(userId: string, up: bool)
      requires Valid()
      modifies this
      ensures Valid()
      ensures up ==> lists == Del(old(lists), userId) && userId !in lists
      ensures !up ==> lists == old(lists)
    {
      if up {
        lists := Del(lists, userId);
      }
    }
  }

  /** After `clear_history(u)` succeeds, a read of `u`'s history, of any size, is empty. */
  lemma ClearThenReadEmpty(m: Keyspace, userId: string, maxLength: int)
    ensures Window(Stored(Del(m, userId), userId), maxLength) == []
  {
  }
}
