/**
 * The three-column triage board of the ticket side bar: the state record
 * `ticketStatus`, the updater that places the fetched tickets, and the updater
 * that a drop on a column applies.
 */
module TriageBoard {
  import opened Options
  import opened TicketIds

  /** A ticket as fetched from the host: its numeric id and optional subject. */
  datatype Ticket = Ticket(id: nat, subject: Option<string>)

  datatype Bucket = Raised | InProgress | Done

  /** `ticketStatus`: one ordered list of tickets per column. */
  datatype Board = Board(raised: seq<Ticket>, inProgress: seq<Ticket>, done: seq<Ticket>)

  /** The state the component starts with: three empty columns. */
  const EmptyBoard := Board([], [], [])

  /** The string a drop payload is compared with: `t.id.toString()`. */
  function Key(t: Ticket): string {
    IdString(t.id)
  }

  function Column(b: Board, c: Bucket): seq<Ticket> {
    match c
    case Raised => b.raised
    case InProgress => b.inProgress
    case Done => b.done
  }

  /** Every entry of the board, column after column. */
  function Entries(b: Board): seq<Ticket> {
    b.raised + b.inProgress + b.done
  }

  /** `a` keeps some of the elements of `b`, in the order `b` has them. */
  ghost predicate Subsequence<T>(a: seq<T>, b: seq<T>)
    decreases |b|
  {
    a == [] || (b != [] && ((a[0] == b[0] && Subsequence(a[1..], b[1..])) || Subsequence(a, b[1..])))
  }

  /** No two tickets of the store share an id. */
  predicate DistinctIds(store: seq<Ticket>) {
    forall i, j :: 0 <= i < j < |store| ==> store[i].id != store[j].id
  }

  /**
   * The board holds exactly the store's tickets, each once: nothing is created
   * or lost, and no ticket sits in two columns or twice in one.
   */
  ghost predicate Partition(b: Board, store: seq<Ticket>) {
    DistinctIds(store) && multiset(Entries(b)) == multiset(store)
  }

  /**
   * The initial-placement updater: the fetched list becomes the Raised
   * column, in its order; the other two columns are carried over from the
   * previous state, not reset.
   */
  function Init(prev: Board, fetched: seq<Ticket>): (r: Board)
    ensures Column(r, Raised) == fetched
    ensures Column(r, InProgress) == Column(prev, InProgress)
    ensures Column(r, Done) == Column(prev, Done)
  {
    prev.(raised := fetched)
  }

  /** `tickets.find(t => t.id.toString() === payload)`: the first match, if any. */
  function Find(store: seq<Ticket>, payload: string): (r: Option<Ticket>)
    ensures r.None? <==> forall i :: 0 <= i < |store| ==> Key(store[i]) != payload
    ensures r.Some? ==> exists i :: && 0 <= i < |store| && store[i] == r.value && Key(r.value) == payload
                                    && forall j :: 0 <= j < i ==> Key(store[j]) != payload
  {
    if store == [] then None
    else if Key(store[0]) == payload then Some(store[0])
    else
      var r := Find(store[1..], payload);
      assert r.Some? ==> exists i :: && 1 <= i < |store| && store[i] == r.value && Key(r.value) == payload
                                     && forall j :: 1 <= j < i ==> Key(store[j]) != payload
        by {
          if r.Some? {
            var k :| && 0 <= k < |store[1..]| && store[1..][k] == r.value && Key(r.value) == payload
                     && forall j :: 0 <= j < k ==> Key(store[1..][j]) != payload;
            assert forall j :: 1 <= j < k + 1 ==> Key(store[j]) != payload by {
              forall j | 1 <= j < k + 1 ensures Key(store[j]) != payload {
                assert store[j] == store[1..][j - 1];
              }
            }
          }
        }
      r
  }

  /**
   * `s.filter(t => t.id.toString() !== payload)`: every entry whose id string
   * is the payload is removed, and the others stay in their order.
   */
  function FilterOut(s: seq<Ticket>, payload: string): (r: seq<Ticket>)
    ensures forall e :: multiset(r)[e] == if Key(e) == payload then 0 else multiset(s)[e]
    ensures Subsequence(r, s)
    ensures (forall i :: 0 <= i < |s| ==> Key(s[i]) != payload) ==> r == s
  {
    if s == [] then []
    else
      var rest := FilterOut(s[1..], payload);
      assert s == [s[0]] + s[1..];
      assert multiset(s) == multiset{s[0]} + multiset(s[1..]);
      if Key(s[0]) == payload then rest
      else
        assert ([s[0]] + rest)[1..] == rest;
        [s[0]] + rest
  }

  /**
   * The drop updater `handleDrop(target)`: when the payload names a store
   * ticket, that ticket is appended to the target column and every entry with
   * that id string is filtered out of the two other columns. The target column
   * itself is not filtered. An unmatched payload leaves the board as it was.
   */
  function Move(store: seq<Ticket>, board: Board, payload: string, target: Bucket): (r: Board)
    ensures Find(store, payload).None? ==> r == board
    ensures Find(store, payload).Some? ==>
      && Column(r, target) == Column(board, target) + [Find(store, payload).value]
      && forall c :: c != target ==> Column(r, c) == FilterOut(Column(board, c), payload)
  {
    match Find(store, payload)
    case None => board
    case Some(t) =>
      var r := Board(
        if target == Raised then board.raised + [t] else FilterOut(board.raised, payload),
        if target == InProgress then board.inProgress + [t] else FilterOut(board.inProgress, payload),
        if target == Done then board.done + [t] else FilterOut(board.done, payload));
      assert forall c :: c != target ==> Column(r, c) == FilterOut(Column(board, c), payload) by {
        forall c | c != target ensures Column(r, c) == FilterOut(Column(board, c), payload) {
          // one case per column; each case follows from the record's field
          if c == Raised {
          } else if c == InProgress {
          } else {
          }
        }
      }
      r
  }

  /** A drop as the drop target reports it: the payload and the column. */
  datatype DropEvent = DropEvent(payload: string, target: Bucket)

  /** The board after a run of drops, each applied to the result of the last. */
  function Replay(store: seq<Ticket>, board: Board, drops: seq<DropEvent>): Board
    decreases |drops|
  {
    if drops == [] then board
    else Replay(store, Move(store, board, drops[0].payload, drops[0].target), drops[1..])
  }

  /** No drop of the run lands a ticket on a column that already holds it. */
  ghost predicate NoSelfDrops(store: seq<Ticket>, board: Board, drops: seq<DropEvent>)
    decreases |drops|
  {
    drops == [] ||
    (&& (Find(store, drops[0].payload).Some? ==>
           Find(store, drops[0].payload).value !in Column(board, drops[0].target))
     && NoSelfDrops(store, Move(store, board, drops[0].payload, drops[0].target), drops[1..]))
  }

  lemma {:induction false} DistinctOccursOnce(store: seq<Ticket>, t: Ticket)
    requires DistinctIds(store)
    requires t in store
    ensures multiset(store)[t] == 1
    decreases |store|
  {
    assert store == [store[0]] + store[1..];
    if store[0] == t {
      forall k | 0 <= k < |store[1..]| ensures store[1..][k] != t {
        assert store[1..][k] == store[k + 1];
      }
    } else {
      DistinctOccursOnce(store[1..], t);
    }
  }

  lemma SameIdSameTicket(store: seq<Ticket>, x: Ticket, y: Ticket)
    requires DistinctIds(store)
    requires x in store && y in store
    requires x.id == y.id
    ensures x == y
  {
    var i :| 0 <= i < |store| && store[i] == x;
    var j :| 0 <= j < |store| && store[j] == y;
  }

  /**
   * On a partitioned board every store ticket sits in exactly one column,
   * once, and every entry of the board is a store ticket.
   */
  lemma PartitionPlacesEachOnce(b: Board, store: seq<Ticket>)
    requires Partition(b, store)
    ensures forall t :: t in store ==>
      multiset(b.raised)[t] + multiset(b.inProgress)[t] + multiset(b.done)[t] == 1
    ensures forall e :: e in Entries(b) ==> e in store
  {
    forall t | t in store
      ensures multiset(b.raised)[t] + multiset(b.inProgress)[t] + multiset(b.done)[t] == 1
    {
      DistinctOccursOnce(store, t);
      assert multiset(Entries(b))[t] == 1;
    }
    forall e | e in Entries(b) ensures e in store {
      assert e in multiset(Entries(b));
    }
  }

  /** Starting from the empty state, initialization yields a partition with everything in Raised. */
  lemma InitFromEmpty(fetched: seq<Ticket>)
    requires DistinctIds(fetched)
    ensures Init(EmptyBoard, fetched) == Board(fetched, [], [])
    ensures Partition(Init(EmptyBoard, fetched), fetched)
  {
    assert Entries(Board(fetched, [], [])) == fetched;
  }

  /**
   * Initialization does not reset the other columns: running it again with
   * the same list after a ticket has been moved out of Raised puts that ticket
   * on the board twice.
   */
  lemma ReinitDuplicatesMovedTicket(b: Board, store: seq<Ticket>, t: Ticket)
    requires Partition(b, store)
    requires t in b.inProgress || t in b.done
    ensures multiset(Entries(Init(b, store)))[t] == 2
    ensures !Partition(Init(b, store), store)
  {
    PartitionPlacesEachOnce(b, store);
    assert t in Entries(b);
    DistinctOccursOnce(store, t);
    assert multiset(b.raised)[t] == 0;
  }

  /** An unmatched payload, such as an empty or non-numeric one, changes nothing. */
  lemma MalformedPayloadIsNoop(store: seq<Ticket>, board: Board, payload: string, target: Bucket)
    requires !CanonicalDecimal(payload)
    ensures Move(store, board, payload, target) == board
  {
  }

  lemma CountByColumns(b: Board, e: Ticket)
    ensures multiset(Entries(b))[e] ==
      multiset(Column(b, Raised))[e] + multiset(Column(b, InProgress))[e] + multiset(Column(b, Done))[e]
  {
  }

  /** The count of one ticket in one column after a matched drop. */
  lemma MoveColumnCount(store: seq<Ticket>, b: Board, payload: string, target: Bucket, t: Ticket, c: Bucket, e: Ticket)
    requires Find(store, payload) == Some(t)
    ensures multiset(Column(Move(store, b, payload, target), c))[e] ==
      if c == target then multiset(Column(b, c))[e] + (if e == t then 1 else 0)
      else if Key(e) == payload then 0
      else multiset(Column(b, c))[e]
  {
  }

  /**
   * Partition preservation: when the dropped ticket is not already in the
   * target column, a drop relocates it and the board still holds every store
   * ticket exactly once.
   */
  lemma MovePreservesPartition(store: seq<Ticket>, b: Board, payload: string, target: Bucket)
    requires Partition(b, store)
    requires Find(store, payload).Some? ==> Find(store, payload).value !in Column(b, target)
    ensures Partition(Move(store, b, payload, target), store)
  {
    var r := Move(store, b, payload, target);
    if Find(store, payload).Some? {
      var t := Find(store, payload).value;
      forall e ensures multiset(Entries(r))[e] == multiset(store)[e] {
        MoveKeepsCount(store, b, payload, target, t, e);
      }
      assert multiset(Entries(r)) == multiset(store);
    }
  }

  /** One ticket's count on the board, before and after a drop that relocates `t`. */
  lemma MoveKeepsCount(store: seq<Ticket>, b: Board, payload: string, target: Bucket, t: Ticket, e: Ticket)
    requires Partition(b, store)
    requires Find(store, payload) == Some(t)
    requires t !in Column(b, target)
    ensures multiset(Entries(Move(store, b, payload, target)))[e] == multiset(store)[e]
  {
    var r := Move(store, b, payload, target);
    CountByColumns(b, e);
    CountByColumns(r, e);
    MoveColumnCount(store, b, payload, target, t, Raised, e);
    MoveColumnCount(store, b, payload, target, t, InProgress, e);
    MoveColumnCount(store, b, payload, target, t, Done, e);
    if Key(e) == payload {
      IdStringInjective(e.id, t.id);
      if e == t {
        DistinctOccursOnce(store, t);
        assert multiset(Column(b, target))[t] == 0;
      } else if e in store {
        SameIdSameTicket(store, e, t);
      } else {
        assert multiset(Entries(b))[e] == 0;
      }
    }
  }

  /**
   * Dropping a ticket on the column that already holds it (and no other)
   * leaves the other two columns as they were and appends a second copy.
   */
  lemma SelfDropDuplicates(store: seq<Ticket>, b: Board, payload: string, target: Bucket, t: Ticket)
    requires Partition(b, store)
    requires Find(store, payload) == Some(t)
    requires t in Column(b, target)
    ensures forall c :: c != target ==> Column(Move(store, b, payload, target), c) == Column(b, c)
    ensures Column(Move(store, b, payload, target), target) == Column(b, target) + [t]
    ensures multiset(Column(Move(store, b, payload, target), target))[t] == 2
    ensures !Partition(Move(store, b, payload, target), store)
  {
    OnlyTargetHoldsTicket(store, b, target, t);
    var r := Move(store, b, payload, target);
    forall c | c != target ensures Column(r, c) == Column(b, c) {
      NoOtherEntryHasKey(store, b, t, c);
    }
    CountByColumns(r, t);
  }

  /** On a partitioned board, a ticket found in one column is in no other, and once in that one. */
  lemma OnlyTargetHoldsTicket(store: seq<Ticket>, b: Board, target: Bucket, t: Ticket)
    requires Partition(b, store)
    requires t in Column(b, target)
    ensures t in store && multiset(store)[t] == 1
    ensures multiset(Column(b, target))[t] == 1
    ensures forall c :: c != target ==> t !in Column(b, c)
  {
    CountByColumns(b, t);
    assert t in multiset(Entries(b));
    DistinctOccursOnce(store, t);
  }

  /** On a partitioned board, a column without `t` holds no entry with `t`'s id string. */
  lemma NoOtherEntryHasKey(store: seq<Ticket>, b: Board, t: Ticket, c: Bucket)
    requires Partition(b, store)
    requires t in store
    requires t !in Column(b, c)
    ensures forall i :: 0 <= i < |Column(b, c)| ==> Key(Column(b, c)[i]) != Key(t)
  {
    forall i | 0 <= i < |Column(b, c)| ensures Key(Column(b, c)[i]) != Key(t) {
      var e := Column(b, c)[i];
      assert e in Entries(b) by {
        assert e in multiset(Column(b, c));
        CountByColumns(b, e);
      }
      assert e in multiset(store);
      if Key(e) == Key(t) {
        IdStringInjective(e.id, t.id);
        SameIdSameTicket(store, e, t);
      }
    }
  }


  /** Repeating a drop on the same column does not behave as a no-op: the ticket ends up there twice. */
  lemma RepeatDropDuplicates(store: seq<Ticket>, b: Board, payload: string, target: Bucket, t: Ticket)
    requires Partition(b, store)
    requires Find(store, payload) == Some(t)
    requires t !in Column(b, target)
    ensures Column(Move(store, Move(store, b, payload, target), payload, target), target)
              == Column(b, target) + [t, t]
    ensures !Partition(Move(store, Move(store, b, payload, target), payload, target), store)
  {
    MovePreservesPartition(store, b, payload, target);
    DropOnOwnColumn(store, Move(store, b, payload, target), payload, target, t, Column(b, target));
  }

  /** The second of two equal drops: the ticket already ends the target column. */
  lemma DropOnOwnColumn(store: seq<Ticket>, once: Board, payload: string, target: Bucket, t: Ticket, col: seq<Ticket>)
    requires Partition(once, store)
    requires Find(store, payload) == Some(t)
    requires Column(once, target) == col + [t]
    ensures Column(Move(store, once, payload, target), target) == col + [t, t]
    ensures !Partition(Move(store, once, payload, target), store)
  {
    assert t in Column(once, target) by {
      assert Column(once, target)[|col|] == t;
    }
    SelfDropDuplicates(store, once, payload, target, t);
    assert col + [t] + [t] == col + [t, t];
  }

  /** Every run of drops that never targets a ticket's own column keeps the board a partition. */
  lemma {:induction false} ReplayKeepsPartition(store: seq<Ticket>, b: Board, drops: seq<DropEvent>)
    requires Partition(b, store)
    requires NoSelfDrops(store, b, drops)
    ensures Partition(Replay(store, b, drops), store)
    decreases |drops|
  {
    if drops != [] {
      MovePreservesPartition(store, b, drops[0].payload, drops[0].target);
      ReplayKeepsPartition(store, Move(store, b, drops[0].payload, drops[0].target), drops[1..]);
    }
  }
}
