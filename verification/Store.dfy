/** The in-memory document store and what its version tokens are worth. */
module Store {
  import opened Text
  import opened Values

  type Key = (string, string) // collection, document id

  /** One document with its version counter; the counter is dropped when the document is deleted. */
  datatype Cell = Cell(doc: Option<Doc>, counter: Option<nat>)

  const ABSENT := Cell(None, None)

  function Count(c: Cell): nat {
    if c.counter.Some? then c.counter.value else 0
  }

  /** The token `get_versioned` hands out; None for a document that does not exist. */
  function TokenOf(c: Cell): Option<nat> {
    if c.doc.Some? then Some(Count(c)) else None
  }

  predicate SwapAllowed(c: Cell, token: Option<nat>) {
    if token.None? then c.doc.None? else c.doc.Some? && Count(c) == token.value
  }

  predicate DropAllowed(c: Cell, token: nat) {
    c.counter == Some(token)
  }

  function Written(c: Cell, d: Doc): Cell {
    Cell(Some(d), Some(Count(c) + 1))
  }

  function Merged(c: Cell, fields: Doc): Doc {
    (if c.doc.Some? then c.doc.value else map[]) + fields
  }

  class InMemoryStore {
    var data: map<Key, Doc>
    var versions: map<Key, nat>

    ghost function CellAt(k: Key): Cell
      reads this
    {
      Cell(if k in data then Some(data[k]) else None, if k in versions then Some(versions[k]) else None)
    }

    /** Every cell but the one at `k` is as it was before. */
    twostate predicate OnlyChanges(k: Key)
      reads this
    {
      data - {k} == old(data) - {k} && versions - {k} == old(versions) - {k}
    }

    constructor ()
      ensures forall k :: CellAt(k) == ABSENT
    {
      data, versions := map[], map[];
    }

    method Bump(k: Key)
      modifies this`versions
      ensures versions == old(versions)[k := old(Count(CellAt(k))) + 1]
    {
      versions := versions[k := (if k in versions then versions[k] else 0) + 1];
    }

    method Set(k: Key, d: Doc)
      modifies this
      ensures CellAt(k) == Written(old(CellAt(k)), d) && OnlyChanges(k)
      ensures data == old(data)[k := d]
      ensures versions == old(versions)[k := if k in old(versions) then old(versions)[k] + 1 else 1]
    {
      data := data[k := d];
      Bump(k);
    }

    method Update(k: Key, fields: Doc)
      modifies this
      ensures CellAt(k) == Written(old(CellAt(k)), Merged(old(CellAt(k)), fields)) && OnlyChanges(k)
      ensures k in data && data[k] - fields.Keys == (if k in old(data) then old(data)[k] else map[]) - fields.Keys
      ensures forall name :: name in fields ==> name in data[k] && data[k][name] == fields[name]
      ensures versions == old(versions)[k := if k in old(versions) then old(versions)[k] + 1 else 1]
    {
      var existing: Doc := if k in data then data[k] else map[];
      data := data[k := existing + fields];
      Bump(k);
    }

    method Delete(k: Key)
      modifies this
      ensures CellAt(k) == ABSENT && OnlyChanges(k)
      ensures k !in data && k !in versions
    {
      data := data - {k};
      versions := versions - {k};
    }

    method GetVersioned(k: Key) returns (d: Option<Doc>, token: Option<nat>)
      ensures d == CellAt(k).doc && token == TokenOf(CellAt(k))
      ensures if k in data then d == Some(data[k]) && token == Some(if k in versions then versions[k] else 0)
              else d.None? && token.None?
    {
      if k !in data {
        return None, None;
      }
      return Some(data[k]), Some(if k in versions then versions[k] else 0);
    }

    method SetIfVersion(k: Key, d: Doc, token: Option<nat>) returns (ok: bool)
      modifies this
      ensures ok == SwapAllowed(old(CellAt(k)), token)
      ensures ok <==> if token.None? then k !in old(data)
                      else k in old(data) && token.value == if k in old(versions) then old(versions)[k] else 0
      ensures if ok then k in data && data[k] == d && k in versions && versions[k] > 0
              else data == old(data) && versions == old(versions)
      ensures CellAt(k) == (if ok then Written(old(CellAt(k)), d) else old(CellAt(k))) && OnlyChanges(k)
    {
      var exists_ := k in data;
      if token.None? {
        if exists_ { return false; }
      } else if !exists_ || (if k in versions then versions[k] else 0) != token.value {
        return false;
      }
      data := data[k := d];
      Bump(k);
      return true;
    }

    method DeleteIfVersion(k: Key, token: nat) returns (ok: bool)
      modifies this
      ensures ok == DropAllowed(old(CellAt(k)), token)
      ensures ok <==> k in old(versions) && old(versions)[k] == token
      ensures if ok then k !in data && k !in versions else data == old(data) && versions == old(versions)
      ensures CellAt(k) == (if ok then ABSENT else old(CellAt(k))) && OnlyChanges(k)
    {
      if k !in versions || versions[k] != token {
        return false;
      }
      data := data - {k};
      versions := versions - {k};
      return true;
    }
  }

  // ---- What a token still says after other writers have been at the document ----

  datatype Event = Put(d: Doc) | Drop

  predicate Sound(c: Cell) {
    c.doc.Some? == c.counter.Some? && (c.counter.Some? ==> c.counter.value > 0)
  }

  function After(c: Cell, h: seq<Event>): (r: Cell)
    ensures Sound(c) ==> Sound(r)
  {
    if h == [] then c
    else
      var before := After(c, h[..|h| - 1]);
      match h[|h| - 1]
      case Put(d) => Written(before, d)
      case Drop => ABSENT
  }

  predicate HasDrop(h: seq<Event>) {
    exists i :: 0 <= i < |h| && h[i] == Drop
  }

  /** How many writes follow the last deletion (all of them when there is none). */
  function PutsAtEnd(h: seq<Event>): nat {
    if h == [] || h[|h| - 1] == Drop then 0 else PutsAtEnd(h[..|h| - 1]) + 1
  }

  lemma {:induction false} CounterAfter(c: Cell, h: seq<Event>)
    requires Sound(c)
    ensures Count(After(c, h)) == PutsAtEnd(h) + (if HasDrop(h) then 0 else Count(c))
    ensures After(c, h).doc.Some? <==> PutsAtEnd(h) > 0 || (!HasDrop(h) && c.doc.Some?)
  {
    if h != [] {
      var front := h[..|h| - 1];
      CounterAfter(c, front);
      if HasDrop(h) && h[|h| - 1] != Drop {
        var i :| 0 <= i < |h| && h[i] == Drop;
        assert front[i] == Drop;
      }
      if HasDrop(front) {
        var i :| 0 <= i < |front| && front[i] == Drop;
        assert h[i] == Drop;
      }
    }
  }

  /** A token taken from an existing document is still accepted after the writes `h`, by a swap and by a
      conditional delete alike, exactly when nothing happened, or the document was deleted and rewritten
      until its counter came back. */
  lemma TokenAcceptedIff(c: Cell, h: seq<Event>)
    requires Sound(c) && c.doc.Some?
    ensures SwapAllowed(After(c, h), TokenOf(c)) <==> h == [] || (HasDrop(h) && PutsAtEnd(h) == Count(c))
    ensures DropAllowed(After(c, h), Count(c)) <==> h == [] || (HasDrop(h) && PutsAtEnd(h) == Count(c))
  {
    CounterAfter(c, h);
    if h != [] && !HasDrop(h) {
      assert h[|h| - 1] != Drop;
    }
  }

  /** While nobody deletes the document, the store keeps its promise: a swap succeeds exactly when
      the document is untouched since its token was read. */
  lemma SwapSeesEveryWrite(c: Cell, h: seq<Event>)
    requires Sound(c) && c.doc.Some? && !HasDrop(h)
    ensures SwapAllowed(After(c, h), TokenOf(c)) <==> h == []
  {
    TokenAcceptedIff(c, h);
  }

  /** Delete, create again: a token from the first life of the document is taken for the second. */
  lemma TokenReuse(d: Doc, e: Doc)
    ensures var c := Written(ABSENT, d);
            var now := After(c, [Drop, Put(e)]);
            SwapAllowed(now, TokenOf(c)) && DropAllowed(now, Count(c)) && now.doc == Some(e)
  {
    var c := Written(ABSENT, d);
    var h := [Drop, Put(e)];
    assert h[..1] == [Drop] && h[..1][..0] == [];
    assert After(c, h[..1]) == ABSENT;
  }
}
