/** The scope registry, the history of user messages and the routing that feeds a running turn. */
module InboundTurns {
  import opened Conversation

  datatype Scope = Scope(agent: Text, channel: Text, chat: Text)

  /** A row of the history; its id is its position, from 1. */
  datatype Row = Row(scope: Scope, user: bool, text: Text)

  predicate Mine(row: Row, scope: Scope) {
    row.user && row.scope == scope
  }

  /** Ids of the user rows of a scope above a cursor and up to a bound, in order. */
  function IdsTo(rows: seq<Row>, scope: Scope, cursor: nat, bound: nat): seq<nat>
    requires bound <= |rows|
  {
    if bound <= cursor then []
    else if Mine(rows[bound - 1], scope) then IdsTo(rows, scope, cursor, bound - 1) + [bound]
    else IdsTo(rows, scope, cursor, bound - 1)
  }

  function Ids(rows: seq<Row>, scope: Scope, cursor: nat): seq<nat> {
    IdsTo(rows, scope, cursor, |rows|)
  }

  /** The messages of those rows. */
  function NewsTo(rows: seq<Row>, scope: Scope, cursor: nat, bound: nat): seq<Message>
    requires bound <= |rows|
  {
    if bound <= cursor then []
    else if Mine(rows[bound - 1], scope) then NewsTo(rows, scope, cursor, bound - 1) + [User(rows[bound - 1].text,
        bound)]
    else NewsTo(rows, scope, cursor, bound - 1)
  }

  /** The id of the last row returned, or the cursor itself. */
  function AdvancedTo(rows: seq<Row>, scope: Scope, cursor: nat, bound: nat): nat
    requires bound <= |rows|
  {
    if bound <= cursor then cursor
    else if Mine(rows[bound - 1], scope) then bound
    else AdvancedTo(rows, scope, cursor, bound - 1)
  }

  lemma {:induction false} NewsAreUsers(rows: seq<Row>, scope: Scope, cursor: nat, bound: nat)
    requires bound <= |rows|
    ensures AllUsers(NewsTo(rows, scope, cursor, bound))
    ensures RowsIn(NewsTo(rows, scope, cursor, bound)) == IdsTo(rows, scope, cursor, bound)
    ensures IdsTo(rows, scope, cursor, bound) == [] <==> NewsTo(rows, scope, cursor, bound) == []
    decreases bound
  {
    if bound > cursor {
      NewsAreUsers(rows, scope, cursor, bound - 1);
      if Mine(rows[bound - 1], scope) {
        RowJoins(NewsTo(rows, scope, cursor, bound - 1), User(rows[bound - 1].text, bound));
      }
    }
  }

  /** A message that came as a row of the scope, word for word. */
  predicate Came(m: Message, rows: seq<Row>, scope: Scope) {
    m.User? && 0 < m.row <= |rows| && Mine(rows[m.row - 1], scope) && rows[m.row - 1].text == m.text
  }

  predicate AllCame(ms: seq<Message>, rows: seq<Row>, scope: Scope) {
    forall k {:trigger Came(ms[k], rows, scope)} | 0 <= k < |ms| :: Came(ms[k], rows, scope)
  }

  lemma {:induction false} LaterCame(ms: seq<Message>, rows: seq<Row>, later: seq<Row>, scope: Scope)
    requires AllCame(ms, rows, scope) && rows <= later
    ensures AllCame(ms, later, scope)
  {
    forall k | 0 <= k < |ms| ensures Came(ms[k], later, scope) {
      assert Came(ms[k], rows, scope);
    }
  }

  /** A drain makes nothing up. */
  lemma {:induction false} NewsCame(rows: seq<Row>, scope: Scope, cursor: nat, bound: nat)
    requires bound <= |rows|
    ensures AllCame(NewsTo(rows, scope, cursor, bound), rows, scope)
    decreases bound
  {
    if bound > cursor {
      NewsCame(rows, scope, cursor, bound - 1);
      if Mine(rows[bound - 1], scope) {
        var before := NewsTo(rows, scope, cursor, bound - 1);
        var m := User(rows[bound - 1].text, bound);
        forall k | 0 <= k < |before + [m]| ensures Came((before + [m])[k], rows, scope) {
          assert k < |before| ==> Came(before[k], rows, scope);
        }
      }
    }
  }

  lemma {:induction false} RowJoins(before: seq<Message>, m: Message)
    requires m.User? && m.row > 0
    ensures RowsIn(before + [m]) == RowsIn(before) + [m.row]
  {
    assert (before + [m])[..|before + [m]| - 1] == before;
  }

  /** Nothing lies between the new cursor and the bound. */
  lemma {:induction false} NothingAfterAdvanced(rows: seq<Row>, scope: Scope, cursor: nat, bound: nat)
    requires bound <= |rows|
    ensures cursor <= AdvancedTo(rows, scope, cursor, bound)
    ensures cursor <= bound ==> AdvancedTo(rows, scope, cursor, bound) <= bound
    ensures IdsTo(rows, scope, AdvancedTo(rows, scope, cursor, bound), bound) == []
    decreases bound
  {
    if bound > cursor {
      NothingAfterAdvanced(rows, scope, cursor, bound - 1);
    }
  }

  /** A range of ids splits at any cursor in it. */
  lemma {:induction false} IdsSplit(rows: seq<Row>, scope: Scope, start: nat, cursor: nat, bound: nat)
    requires start <= cursor <= bound <= |rows|
    ensures IdsTo(rows, scope, start, bound) == IdsTo(rows, scope, start, cursor) + IdsTo(rows, scope, cursor, bound)
    decreases bound
  {
    if bound > cursor {
      IdsSplit(rows, scope, start, cursor, bound - 1);
    }
  }

  /** Later rows change no earlier id. */
  lemma {:induction false} IdsStay(rows: seq<Row>, later: seq<Row>, scope: Scope, cursor: nat, bound: nat)
    requires bound <= |rows| && rows <= later
    ensures IdsTo(rows, scope, cursor, bound) == IdsTo(later, scope, cursor, bound)
    decreases bound
  {
    if bound > cursor {
      IdsStay(rows, later, scope, cursor, bound - 1);
    }
  }

  predicate IsNews(rows: seq<Row>, scope: Scope, cursor: nat, bound: nat, id: nat)
    requires bound <= |rows|
  {
    cursor < id <= bound && Mine(rows[id - 1], scope)
  }

  predicate Increasing(ids: seq<nat>) {
    forall i, j | 0 <= i < j < |ids| :: ids[i] < ids[j]
  }

  /** In id order, each once, and exactly the user rows of the scope. */
  lemma {:induction false} IdsAreExact(rows: seq<Row>, scope: Scope, cursor: nat, bound: nat)
    requires bound <= |rows|
    ensures var ids := IdsTo(rows, scope, cursor, bound);
            && Increasing(ids)
            && (forall n :: n in ids <==> IsNews(rows, scope, cursor, bound, n))
    decreases bound
  {
    if bound > cursor {
      IdsAreExact(rows, scope, cursor, bound - 1);
      var ids := IdsTo(rows, scope, cursor, bound - 1);
      assert forall i | 0 <= i < |ids| :: ids[i] in ids;
      forall n ensures n in IdsTo(rows, scope, cursor, bound) <==> IsNews(rows, scope, cursor, bound, n) {
        assert n in ids <==> IsNews(rows, scope, cursor, bound - 1, n);
      }
      assert forall i | 0 <= i < |ids| :: IsNews(rows, scope, cursor, bound - 1, ids[i]);
    }
  }

  /** Busy scopes and pending cancellations. */
  class ScopeRegistry {
    var busy: set<Scope>
    var cancel: set<Scope>

    constructor ()
      ensures Valid() && busy == {}
    {
      busy, cancel := {}, {};
    }

    /** A cancellation is pending only for a turn under way. */
    predicate Valid()
      reads this
    {
      cancel <= busy
    }

    method TryMarkBusy(scope: Scope) returns (ok: bool)
      requires Valid()
      modifies this
      ensures Valid()
      ensures ok == (scope !in old(busy)) && busy == old(busy) + {scope} && cancel == old(cancel)
    {
      if scope in busy {
        return false;
      }
      busy := busy + {scope};
      return true;
    }

    /** A turn that closes drops a pending cancellation: a late stop must not hit the next turn. */
    method MarkIdle(scope: Scope)
      requires Valid()
      modifies this
      ensures Valid()
      ensures busy == old(busy) - {scope} && cancel == old(cancel) - {scope}
    {
      busy := busy - {scope};
      cancel := cancel - {scope};
    }

    method RequestCancel(scope: Scope) returns (ok: bool)
      requires Valid()
      modifies this
      ensures Valid()
      ensures ok == (scope in old(busy)) && busy == old(busy)
      ensures cancel == old(cancel) + if ok then {scope} else {}
    {
      if scope !in busy {
        return false;
      }
      cancel := cancel + {scope};
      return true;
    }
  }

  /** What other coroutines can do while a turn awaits. */
  datatype Inbound = Arrives | AsksToStop | Closes | Notes

  /** The process a turn runs in. */
  class World {
    const registry: ScopeRegistry
    var rows: seq<Row>

    constructor (registry: ScopeRegistry)
      ensures this.registry == registry && rows == []
    {
      this.registry := registry;
      rows := [];
    }

    /**
     Any number of inbound messages, stops, other turns and notes while the turn of `mine` awaits. A
     message for a busy scope is persisted for the running turn; nobody else closes this turn.
     */
    method Interleave(mine: Scope)
      requires registry.Valid()
      modifies this, registry
      ensures registry.Valid()
      ensures old(rows) <= rows
      ensures mine in old(registry.busy) ==> mine in registry.busy
      ensures mine in old(registry.cancel) ==> mine in registry.cancel
    {
      var n: nat := *;
      while n > 0
        invariant registry.Valid()
        invariant old(rows) <= rows
        invariant mine in old(registry.busy) ==> mine in registry.busy
        invariant mine in old(registry.cancel) ==> mine in registry.cancel
      {
        n := n - 1;
        var scope: Scope := *;
        var text: Text := *;
        var step: Inbound := *;
        match step
        case Arrives =>
          var ok := registry.TryMarkBusy(scope);
          if !ok {
            rows := rows + [Row(scope, true, text)];
          }
        case AsksToStop =>
          var _ := registry.RequestCancel(scope);
        case Closes =>
          if scope != mine {
            registry.MarkIdle(scope);
          }
        case Notes => rows := rows + [Row(scope, false, text)];
      }
    }
  }
}
