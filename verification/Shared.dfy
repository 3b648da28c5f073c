/** One stored document, and the clock, as one thread sees them among many. */
module Shared {
  import opened Text

  /** Stamps never repeat. `history` lists every content the document has had, and `saves` counts the writes
      that went through the conditional writes here. `mine` marks contents no other thread ever writes, such as
      records with a fresh token; where nothing is known of that, it marks none. */
  class SharedCell<T> {
    const mine: T -> bool
    var doc: Option<T>
    var stamp: nat
    ghost var history: seq<Option<T>>
    ghost var saves: nat

    ghost predicate Valid()
      reads this
    {
      |history| > 0 && history[|history| - 1] == doc
    }

    constructor (doc: Option<T>, mine: T -> bool)
      ensures Valid() && history == [doc] && saves == 0 && this.mine == mine
    {
      this.mine := mine;
      this.doc, stamp, history, saves := doc, 0, [doc], 0;
    }

    /** The contents from `first` on were written by other threads, or by deletions. */
    ghost predicate Foreign(first: nat)
      reads this
    {
      forall i :: first <= i < |history| && history[i].Some? ==> !mine(history[i].value)
    }

    method GetVersioned() returns (d: Option<T>, version: nat)
      ensures d == doc && version == stamp
    {
      return doc, stamp;
    }

    method SetIfVersion(d: T, expected: Option<nat>) returns (ok: bool)
      requires Valid()
      modifies this
      ensures Valid()
      ensures ok == (if expected.None? then old(doc).None? else old(doc).Some? && old(stamp) == expected.value)
      ensures ok ==> history == old(history) + [Some(d)] && stamp == old(stamp) + 1 && saves == old(saves) + 1
      ensures !ok ==> history == old(history) && stamp == old(stamp) && saves == old(saves)
    {
      ok := if expected.None? then doc.None? else doc.Some? && stamp == expected.value;
      if ok {
        doc, stamp, saves := Some(d), stamp + 1, saves + 1;
        history := history + [doc];
      }
    }

    method DeleteIfVersion(expected: nat) returns (ok: bool)
      requires Valid()
      modifies this
      ensures Valid()
      ensures ok == (old(doc).Some? && old(stamp) == expected)
      ensures ok ==> history == old(history) + [None] && stamp == old(stamp) + 1 && saves == old(saves) + 1
      ensures !ok ==> history == old(history) && stamp == old(stamp) && saves == old(saves)
    {
      ok := doc.Some? && stamp == expected;
      if ok {
        doc, stamp, saves := None, stamp + 1, saves + 1;
        history := history + [doc];
      }
    }

    /** Anything the other threads and servers may do meanwhile: any number of writes and deletions. */
    method OthersRun()
      requires Valid()
      modifies this
      ensures Valid() && saves == old(saves)
      ensures old(history) <= history && old(stamp) <= stamp
      ensures if stamp == old(stamp) then history == old(history) else |history| > |old(history)|
      ensures Foreign(|old(history)|)
    {
      var n: nat := *;
      while n > 0
        invariant Valid() && saves == old(saves)
        invariant old(history) <= history && old(stamp) <= stamp
        invariant if stamp == old(stamp) then history == old(history) else |history| > |old(history)|
        invariant Foreign(|old(history)|)
      {
        var content: Option<T> := *;
        if content.Some? && mine(content.value) {
          content := None;
        }
        doc, stamp := content, stamp + 1;
        history := history + [doc];
        n := n - 1;
      }
    }
  }

  /** The one clock, which never goes back. */
  class Clock {
    var now: int

    constructor (now: int)
      ensures this.now == now
    {
      this.now := now;
    }

    method Read() returns (time: int)
      modifies this
      ensures old(now) <= time == now
    {
      time :| time >= now;
      now := time;
    }
  }
}
