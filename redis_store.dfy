/**
 * The Redis keyspace the proxy records fingerprints in, reduced to what one
 * committed transaction `GETSET key true; PEXPIRE key ttl` reads and writes:
 * a map from key to (flag, expiry) and a millisecond clock.
 */
module RedisStore {
  import opened Wrappers

  /** What the store holds under a key: the flag written there and the clock reading at which it expires. */
  datatype Entry = Entry(value: bool, expiresAt: nat)

  datatype State = State(entries: map<string, Entry>, clock: nat)

  /**
   * The value a read of `key` sees: none once the key is missing or its
   * expiry lies behind the clock. A key stays live through its expiry
   * millisecond, as in Redis, which expires a key once now > expiry.
   */
  function Get(s: State, key: string): Option<bool> {
    if key in s.entries && s.clock <= s.entries[key].expiresAt then Some(s.entries[key].value) else None
  }

  /**
   * The committed transaction: `GETSET key true` answers the previous value
   * and stores true, then `PEXPIRE key ttl` sets the expiry to now + ttl
   * (ttl = 0 removes the key at once). No other key is affected.
   */
  function GetSetExpire(s: State, key: string, ttl: nat): (res: (Option<bool>, State))
    ensures res.0 == Get(s, key)
    ensures res.1.clock == s.clock
    ensures ttl > 0 ==> key in res.1.entries && res.1.entries[key] == Entry(true, s.clock + ttl)
    ensures Get(res.1, key) == (if ttl > 0 then Some(true) else None)
    ensures forall k :: k != key ==> Get(res.1, k) == Get(s, k)
    ensures res.1.entries.Keys == if ttl > 0 then s.entries.Keys + {key} else s.entries.Keys - {key}
    ensures forall k :: k in s.entries && k != key ==> res.1.entries[k] == s.entries[k]
  {
    var entries := if ttl > 0 then s.entries[key := Entry(true, s.clock + ttl)] else s.entries - {key};
    (Get(s, key), State(entries, s.clock))
  }

  /** The state `ms` milliseconds later. */
  function Advance(s: State, ms: nat): State {
    s.(clock := s.clock + ms)
  }

  /** The store, updated in place by each transaction and by the passing of time. */
  class Store {
    var entries: map<string, Entry>
    var clock: nat

    function Snapshot(): State
      reads this
    {
      State(entries, clock)
    }

    constructor ()
      ensures Snapshot() == State(map[], 0)
    {
      entries := map[];
      clock := 0;
    }

    /** One atomic run of the transaction on `key`; answers the previous value, if any. */
    method Transaction(key: string, ttl: nat) returns (previous: Option<bool>)
      modifies this
      ensures (previous, Snapshot()) == GetSetExpire(old(Snapshot()), key, ttl)
    {
      previous := if key in entries && clock <= entries[key].expiresAt then Some(entries[key].value) else None;
      if ttl > 0 {
        entries := entries[key := Entry(true, clock + ttl)];
      } else {
        entries := entries - {key};
      }
    }

    /** Lets `ms` milliseconds pass. */
    method Tick(ms: nat)
      modifies this
      ensures Snapshot() == Advance(old(Snapshot()), ms)
    {
      clock := clock + ms;
    }
  }

  // ---------------------------------------------------------------------------
  // Repeated transactions on one key

  /**
   * The flags `found.0.unwrap_or(false)` of successive transactions on `key`
   * with the same `ttl`, the i-th taking place `gaps[i]` ms after the one
   * before it (the first, `gaps[0]` ms after `s`).
   */
  function Replay(s: State, key: string, ttl: nat, gaps: seq<nat>): (flags: seq<bool>)
    ensures |flags| == |gaps|
    decreases |gaps|
  {
    if gaps == [] then []
    else
      var step := GetSetExpire(Advance(s, gaps[0]), key, ttl);
      [step.0.UnwrapOr(false)] + Replay(step.1, key, ttl, gaps[1..])
  }

  /**
   * The window slides: each transaction after the first sees true exactly
   * when `ttl` is positive and it comes at most `ttl` ms after the previous
   * one; the first sees what the store held.
   */
  lemma {:induction false} ReplayFlags(s: State, key: string, ttl: nat, gaps: seq<nat>)
    requires |gaps| > 0
    ensures Replay(s, key, ttl, gaps)[0] == Get(Advance(s, gaps[0]), key).UnwrapOr(false)
    ensures forall i :: 0 < i < |gaps| ==> Replay(s, key, ttl, gaps)[i] == (ttl > 0 && gaps[i] <= ttl)
    decreases |gaps|
  {
    var step := GetSetExpire(Advance(s, gaps[0]), key, ttl);
    var flags := Replay(s, key, ttl, gaps);
    assert flags == [step.0.UnwrapOr(false)] + Replay(step.1, key, ttl, gaps[1..]);
    if |gaps| > 1 {
      ReplayFlags(step.1, key, ttl, gaps[1..]);
      forall i | 0 < i < |gaps|
        ensures flags[i] == (ttl > 0 && gaps[i] <= ttl)
      {
        assert flags[i] == Replay(step.1, key, ttl, gaps[1..])[i - 1];
      }
    }
  }

  /**
   * Exactly one transaction per window observes false: when the key is
   * absent, expired or false at the first transaction, and each later one
   * follows the previous within `ttl`, the first sees false and all the
   * others see true. (With `ttl` = 0 every transaction sees false.)
   */
  lemma OneFalsePerWindow(s: State, key: string, ttl: nat, gaps: seq<nat>)
    requires |gaps| > 0
    requires Get(Advance(s, gaps[0]), key) != Some(true)
    requires |gaps| > 1 ==> ttl > 0
    requires forall i :: 0 < i < |gaps| ==> gaps[i] <= ttl
    ensures Replay(s, key, ttl, gaps) == [false] + seq(|gaps| - 1, _ => true)
    ensures multiset(Replay(s, key, ttl, gaps))[false] == 1
  {
    var flags := Replay(s, key, ttl, gaps);
    var expected := [false] + seq(|gaps| - 1, _ => true);
    ReplayFlags(s, key, ttl, gaps);
    assert flags == expected;
    var rest := seq(|gaps| - 1, _ => true);
    assert false !in rest;
    assert multiset(expected) == multiset([false]) + multiset(rest);
  }
}
