/** The short-lived store: counters and texts with a deadline, dropped lazily. */
module Ephemeral {
  import opened Common

  /** A counter, the JSON payload of a one-time code (kept parsed), or any other text. */
  datatype Value = Count(n: nat) | Payload(phone: string, code: string) | Text(text: string)

  /** `expiresAt` is the first instant at which the item is gone. */
  datatype Item = Item(value: Value, expiresAt: nat)

  type Items = map<string, Item>

  predicate Live(items: Items, key: string, now: nat) {
    key in items && now < items[key].expiresAt
  }

  function Lookup(items: Items, key: string, now: nat): Option<Value> {
    if Live(items, key, now) then Some(items[key].value) else None
  }

  /** The script's effect: the deadline is set only by the increment that creates the key. */
  function Incremented(items: Items, key: string, ttl: nat, now: nat): Items {
    if !Live(items, key, now) then items[key := Item(Count(1), now + ttl)]
    else match items[key].value
      case Count(n) => items[key := Item(Count(n + 1), items[key].expiresAt)]
      case _ => items
  }

  class EphemeralStore {
    var items: Items

    constructor ()
      ensures items == map[]
    {
      items := map[];
    }

    /** INCR and, when it created the key, EXPIRE; anything but a counter under the key is an error. */
    method IncrWithTtl(key: string, ttl: nat, now: nat) returns (count: Option<nat>)
      modifies this
      ensures items == Incremented(old(items), key, ttl, now)
      ensures count.None? <==> old(Live(items, key, now) && !items[key].value.Count?)
      ensures count.Some? ==> key in items && items[key].value == Count(count.value)
    {
      if !Live(items, key, now) {
        items := items[key := Item(Count(0), now + ttl)];
      }
      match items[key].value {
        case Count(n) =>
          items := items[key := Item(Count(n + 1), items[key].expiresAt)];
          return Some(n + 1);
        case _ => return None;
      }
    }

    method Get(key: string, now: nat) returns (value: Option<Value>)
      ensures value == Lookup(items, key, now)
    {
      if Live(items, key, now) {
        return Some(items[key].value);
      }
      return None;
    }

    method SetEx(key: string, value: Value, ttl: nat, now: nat)
      modifies this
      ensures items == old(items)[key := Item(value, now + ttl)]
    {
      items := items[key := Item(value, now + ttl)];
    }

    method Del(key: string)
      modifies this
      ensures items == old(items) - {key}
    {
      items := items - {key};
    }

    /** Read and delete in one step: whoever asks next, and whenever, finds nothing. */
    method GetDel(key: string, now: nat) returns (value: Option<Value>)
      modifies this
      ensures value == old(Lookup(items, key, now))
      ensures forall at :: Lookup(items, key, at) == None
      ensures items == old(items) - {key}
    {
      value := Get(key, now);
      items := items - {key};
    }
  }

  /** How many `GetDel` calls, made one after the other at their times, are given a value of `key`. */
  function Takers(items: Items, calls: seq<(string, nat)>, key: string): nat {
    if calls == [] then 0
    else
      (if calls[0].0 == key && Lookup(items, key, calls[0].1).Some? then 1 else 0)
      + Takers(items - {calls[0].0}, calls[1..], key)
  }

  /** A value goes to at most one of any number of callers. */
  lemma {:induction false} OneTaker(items: Items, calls: seq<(string, nat)>, key: string)
    ensures Takers(items, calls, key) <= if key in items then 1 else 0
  {
    if calls != [] {
      OneTaker(items - {calls[0].0}, calls[1..], key);
    }
  }
}
