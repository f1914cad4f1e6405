/** The ack cache that suppresses a command whose value the device has already acknowledged. */
module Caches {
  import opened Wrappers

  datatype Cache<T> = Cache(lastAcked: Option<T>, lastAttempted: T)

  /** The command to send for a wanted value: none when that value is the acknowledged one. */
  function Wanted<T(==)>(c: Cache<T>, value: T): Option<T> {
    if c.lastAcked == Some(value) then None else Some(value)
  }

  /** The cache after asking for a wanted value: an attempt drops the acknowledged value until its ack comes. */
  function Attempt<T(==)>(c: Cache<T>, value: T): Cache<T> {
    if c.lastAcked == Some(value) then c else Cache(None, value)
  }

  function Confirmed<T>(c: Cache<T>): Cache<T> {
    c.(lastAcked := Some(c.lastAttempted))
  }

  function Forgotten<T>(c: Cache<T>): Cache<T> {
    c.(lastAcked := None)
  }

  /** Asked, acknowledged, asked again: the second time nothing is sent, for any cache and value. */
  lemma AckSuppressesRepeat<T>(c: Cache<T>, value: T)
    ensures Wanted(c, value).Some? ==>
              && Wanted(Confirmed(Attempt(c, value)), value).None?
              && Confirmed(Attempt(c, value)).lastAcked == Some(value)
    ensures Wanted(c, value).None? ==> Attempt(c, value) == c && Wanted(Forgotten(c), value) == Some(value)
  {
  }

  class CachedCommand<T(==)> {
    var lastAckedValue: Option<T>
    var lastAttemptedValue: T

    ghost function Model(): Cache<T>
      reads this
    {
      Cache(lastAckedValue, lastAttemptedValue)
    }

    /** The attempted value starts out unset in the daemon; `unset` stands for whatever it holds. */
    constructor (unset: T)
      ensures Model() == Cache(None, unset)
    {
      lastAckedValue := None;
      lastAttemptedValue := unset;
    }

    method ForceReset()
      modifies this
      ensures Model() == Forgotten(old(Model()))
    {
      lastAckedValue := None;
    }

    method Ack()
      modifies this
      ensures Model() == Confirmed(old(Model()))
    {
      lastAckedValue := Some(lastAttemptedValue);
    }

    /** `newValue` is what the subscriber holds now. */
    method Get(newValue: T) returns (command: Option<T>)
      modifies this
      ensures command == Wanted(old(Model()), newValue)
      ensures Model() == Attempt(old(Model()), newValue)
    {
      if Some(newValue) != lastAckedValue {
        lastAckedValue := None;
        lastAttemptedValue := newValue;
        return Some(newValue);
      }
      return None;
    }

    /** Used on boolean commands only, where `off` is false. */
    method GetWithCanEnable(canEnable: bool, current: T, off: T) returns (command: Option<T>)
      modifies this
      ensures command == Wanted(old(Model()), if canEnable then current else off)
      ensures Model() == Attempt(old(Model()), if canEnable then current else off)
    {
      var newValue := if canEnable then current else off;
      if Some(newValue) != lastAckedValue {
        lastAckedValue := None;
        lastAttemptedValue := newValue;
        return Some(newValue);
      }
      return None;
    }
  }
}
