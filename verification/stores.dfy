/** The stores: each owns its tables, and a call that fails on the database changes nothing. */
module Stores {
  import opened ByteStrings
  import opened Wrappers
  import opened Records
  import opened GrantTable
  import opened EventTable
  import opened LedgerState
  import opened Operations

  class SessionStore {
    var rows: map<Bytes, Session>

    constructor ()
      ensures rows == map[]
    {
      rows := map[];
    }

    method Create(s: Session, down: set<Call>) returns (r: Result<bool, Error>)
      modifies this
      ensures r == if CreateSession in down || s.sessionId in old(rows) then Err(Internal) else Ok(true)
      ensures rows == if r.Ok? then old(rows)[s.sessionId := StoredSession(s)] else old(rows)
    {
      if CreateSession in down || s.sessionId in rows {
        return Err(Internal);
      }
      rows := rows[s.sessionId := StoredSession(s)];
      return Ok(true);
    }

    method Get(sessionId: Bytes, down: set<Call>) returns (r: Result<Session, Error>)
      ensures r == if GetSession in down then Err(Internal)
                   else if sessionId !in rows then Err(NotFound)
                   else Ok(rows[sessionId])
    {
      if GetSession in down {
        return Err(Internal);
      }
      if sessionId !in rows {
        return Err(NotFound);
      }
      return Ok(rows[sessionId]);
    }

    method End(sessionId: Bytes, at: int, down: set<Call>) returns (r: Result<Session, Error>)
      modifies this
      ensures r == if Call.EndSession in down then Err(Internal)
                   else if sessionId !in old(rows) then Err(NotFound)
                   else Ok(old(rows)[sessionId].(endedAt := StoredTime(Some(at))))
      ensures rows == if r.Ok? then old(rows)[sessionId := r.value] else old(rows)
    {
      if Call.EndSession in down {
        return Err(Internal);
      }
      if sessionId !in rows {
        return Err(NotFound);
      }
      rows := rows[sessionId := rows[sessionId].(endedAt := StoredTime(Some(at)))];
      return Ok(rows[sessionId]);
    }

    /** Increments the session's counter in place; the last int64 cannot be exceeded. */
    method NextSequence(sessionId: Bytes, down: set<Call>) returns (r: Result<int64, Error>)
      modifies this
      ensures r.Ok? <==>
        Call.NextSequence !in down && sessionId in old(rows) && old(rows)[sessionId].eventCount < MAX_COUNT
      ensures r.Ok? ==> r.value == old(rows)[sessionId].eventCount + 1
      ensures r.Err? ==> r.error == if Call.NextSequence !in down && sessionId !in old(rows) then NotFound else Internal
      ensures rows == if r.Ok? then old(rows)[sessionId := old(rows)[sessionId].(eventCount := r.value)] else old(rows)
    {
      if Call.NextSequence in down {
        return Err(Internal);
      }
      if sessionId !in rows {
        return Err(NotFound);
      }
      if rows[sessionId].eventCount >= MAX_COUNT {
        return Err(Internal);
      }
      rows := rows[sessionId := rows[sessionId].(eventCount := rows[sessionId].eventCount + 1)];
      return Ok(rows[sessionId].eventCount);
    }
  }

  class GrantStore {
    var rows: seq<Grant>
    var revocations: map<Bytes, Bytes>

    constructor ()
      ensures rows == [] && revocations == map[]
    {
      rows := [];
      revocations := map[];
    }

    method Put(g: Grant, down: set<Call>) returns (r: Result<bool, Error>)
      modifies this`rows
      ensures r == if PutGrant in down then Err(Internal) else Ok(true)
      ensures rows == if r.Ok? then PutRow(old(rows), StoredGrant(g)) else old(rows)
    {
      if PutGrant in down {
        return Err(Internal);
      }
      var scope := if g.scope.None? then EMPTY_SCOPE else g.scope.value;
      rows := PutRow(rows, g.(scope := Some(scope), expiresAt := StoredTime(g.expiresAt)));
      return Ok(true);
    }

    method Get(id: Bytes, down: set<Call>) returns (r: Result<Grant, Error>)
      ensures r == if GetGrant in down then Err(Internal)
                   else if FindGrant(rows, id).None? then Err(NotFound)
                   else Ok(FindGrant(rows, id).value)
    {
      if GetGrant in down {
        return Err(Internal);
      }
      var row := FindGrant(rows, id);
      if row.None? {
        return Err(NotFound);
      }
      return Ok(row.value);
    }

    /** The recursive query, round by round, over the whole table; an endless one ends in an overflow of its depth. */
    method Chain(id: Bytes, down: set<Call>) returns (r: Result<seq<Grant>, Error>)
      requires QueryEnds(rows, id)
      ensures r == if GrantChain in down then Err(Internal)
                   else if |ChainOf(rows, id)| == 0 then Err(NotFound)
                   else Ok(ChainOf(rows, id))
    {
      hide FindGrant, QueryEnds;
      if GrantChain in down {
        return Err(Internal);
      }
      QueryEndsExactly(rows, id);
      var out := [];
      var row := FindGrant(rows, id);
      ghost var next: Bytes, rounds: nat := id, |rows|;
      while row.Some?
        invariant row.Some? ==> row == FindGrant(rows, next) && EndsWithin(rows, next, rounds)
        invariant ChainOf(rows, id) == (if row.None? then [] else Ancestors(rows, next, rounds)) + out
        decreases if row.None? then 0 else rounds + 1
      {
        ghost var parentId := row.value.parentGrantId;
        ghost var before := if parentId == [] then [] else Ancestors(rows, parentId, rounds - 1);
        assert before + ([row.value] + out) == (before + [row.value]) + out;
        out := [row.value] + out;
        row := if row.value.parentGrantId == [] then None else FindGrant(rows, row.value.parentGrantId);
        next, rounds := parentId, rounds - 1;
      }
      assert ChainOf(rows, id) == out;
      if |out| == 0 {
        return Err(NotFound);
      }
      return Ok(out);
    }

    method Revoke(id: Bytes, reason: Bytes, down: set<Call>) returns (r: Result<bool, Error>)
      modifies this`revocations
      ensures r == if PutRevocation in down then Err(Internal) else Ok(true)
      ensures revocations == if r.Ok? then old(revocations)[id := reason] else old(revocations)
    {
      if PutRevocation in down {
        return Err(Internal);
      }
      revocations := revocations[id := reason];
      return Ok(true);
    }

    method IsRevoked(id: Bytes, down: set<Call>) returns (r: Result<bool, Error>)
      ensures r == if Call.IsRevoked in down then Err(Internal) else Ok(id in revocations)
    {
      if Call.IsRevoked in down {
        return Err(Internal);
      }
      return Ok(id in revocations);
    }
  }

  class EventStore {
    var rows: seq<ActionEvent>

    constructor ()
      ensures rows == []
    {
      rows := [];
    }

    method Append(e: ActionEvent, down: set<Call>) returns (r: Result<bool, Error>)
      modifies this
      ensures r == if AppendEvent in down || Refused(old(rows), e) then Err(Internal) else Ok(true)
      ensures rows == if r.Ok? then old(rows) + [StoredEvent(e)] else old(rows)
    {
      if AppendEvent in down || Refused(rows, e) {
        return Err(Internal);
      }
      rows := rows + [StoredEvent(e)];
      return Ok(true);
    }

    method Get(eventId: Bytes, down: set<Call>) returns (r: Result<ActionEvent, Error>)
      ensures r == if GetEvent in down then Err(Internal)
                   else if FindEvent(rows, eventId).None? then Err(NotFound)
                   else Ok(FindEvent(rows, eventId).value)
    {
      if GetEvent in down {
        return Err(Internal);
      }
      var row := FindEvent(rows, eventId);
      if row.None? {
        return Err(NotFound);
      }
      return Ok(row.value);
    }

    method Last(sessionId: Bytes, down: set<Call>) returns (r: Result<ActionEvent, Error>)
      ensures r == if LastEvent in down then Err(Internal)
                   else if LastOf(rows, sessionId).None? then Err(NotFound)
                   else Ok(LastOf(rows, sessionId).value)
    {
      if LastEvent in down {
        return Err(Internal);
      }
      var row := LastOf(rows, sessionId);
      if row.None? {
        return Err(NotFound);
      }
      return Ok(row.value);
    }

    method OfSession(sessionId: Bytes, down: set<Call>) returns (r: Result<seq<ActionEvent>, Error>)
      ensures r == if Call.EventsBySession in down then Err(Internal) else Ok(BySession(rows, sessionId))
    {
      if Call.EventsBySession in down {
        return Err(Internal);
      }
      return Ok(BySession(rows, sessionId));
    }
  }

  class AnchorStore {
    var entries: map<Bytes, Anchor>

    constructor ()
      ensures entries == map[]
    {
      entries := map[];
    }

    method Put(sessionId: Bytes, root: Bytes, at: int, down: set<Call>) returns (r: Result<Anchor, Error>)
      modifies this
      ensures r == if UpsertAnchor in down then Err(Internal) else Ok(Anchor(root, at))
      ensures entries == if r.Ok? then old(entries)[sessionId := r.value] else old(entries)
    {
      if UpsertAnchor in down {
        return Err(Internal);
      }
      var anchor := Anchor(root, at);
      entries := entries[sessionId := anchor];
      return Ok(anchor);
    }

    method Get(sessionId: Bytes, down: set<Call>) returns (r: Result<Anchor, Error>)
      ensures r == if GetAnchor in down then Err(Internal)
                   else if sessionId !in entries then Err(NotFound)
                   else Ok(entries[sessionId])
    {
      if GetAnchor in down {
        return Err(Internal);
      }
      if sessionId !in entries {
        return Err(NotFound);
      }
      return Ok(entries[sessionId]);
    }
  }
}
