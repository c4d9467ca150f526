/**
 * The side-bar component: the state it keeps between events, the mount
 * effect that loads the tickets, the drop handler, and the two per-ticket
 * strings its columns render.
 */
module SideBar {
  import opened Options
  import opened TicketIds
  import opened TriageBoard

  const Placeholder := "No Subject"

  /**
   * `ticket.subject || 'No Subject'`: an absent subject and an empty one are
   * both falsy and show the placeholder; any other subject shows as it is.
   */
  function DisplaySubject(t: Ticket): (r: string)
    ensures r == Placeholder <==> t.subject in {None, Some(""), Some(Placeholder)}
    ensures t.subject.Some? && t.subject.value != "" ==> r == t.subject.value
    ensures r != ""
  {
    match t.subject
    case None => Placeholder
    case Some(s) => if s == "" then Placeholder else s
  }

  /** The fixed part of a ticket link, up to the id. */
  function LinkPrefix(subdomain: string): string {
    "https://" + subdomain + ".zendesk.com/agent/tickets/"
  }

  /** `https://{subdomain}.zendesk.com/agent/tickets/{id}`. */
  function TicketLink(subdomain: string, id: nat): (r: string)
    ensures |r| > |LinkPrefix(subdomain)|
    ensures r[..|LinkPrefix(subdomain)|] == LinkPrefix(subdomain)
    ensures r[|LinkPrefix(subdomain)|..] == IdString(id)
  {
    LinkPrefix(subdomain) + IdString(id)
  }

  /** Within one account, different tickets get different links. */
  lemma LinkIdentifiesTicket(subdomain: string, a: nat, b: nat)
    ensures TicketLink(subdomain, a) == TicketLink(subdomain, b) <==> a == b
  {
    if TicketLink(subdomain, a) == TicketLink(subdomain, b) {
      IdStringInjective(a, b);
    }
  }

  /** The component's state: the fetched tickets, the account subdomain and the board. */
  class TicketSideBar {
    var tickets: seq<Ticket>
    var subdomain: string
    var status: Board

    /** The initial `useState` values. */
    constructor ()
      ensures tickets == [] && subdomain == "" && status == EmptyBoard
    {
      tickets := [];
      subdomain := "";
      status := EmptyBoard;
    }

    /**
     * The mount effect. `context` is what the host context request gave
     * (None when it failed), `response` the ticket list the ticket request
     * gave (None when it failed). A failure stops the sequence where it
     * happens and leaves the rest of the state as it was.
     */
    method Load(context: Option<string>, response: Option<seq<Ticket>>)
      modifies this
      ensures context.None? ==> subdomain == old(subdomain)
      ensures context.Some? ==> subdomain == context.value
      ensures context.Some? && response.Some? ==>
                tickets == response.value && status == Init(old(status), response.value)
      ensures context.None? || response.None? ==> tickets == old(tickets) && status == old(status)
    {
      if context.Some? {
        subdomain := context.value;
        if response.Some? {
          tickets := response.value;
          status := Init(status, response.value);
        }
      }
    }

    /** The drop handler of column `target`, given the dragged ticket's payload. */
    method Drop(target: Bucket, payload: string)
      modifies this`status
      ensures status == Move(tickets, old(status), payload, target)
      ensures old(Partition(status, tickets))
              && (Find(tickets, payload).Some? ==> Find(tickets, payload).value !in Column(old(status), target))
              ==> Partition(status, tickets)
    {
      if Partition(status, tickets)
         && (Find(tickets, payload).Some? ==> Find(tickets, payload).value !in Column(status, target))
      {
        MovePreservesPartition(tickets, status, payload, target);
      }
      status := Move(tickets, status, payload, target);
    }
  }

  /**
   * Two tickets, the second without a subject: both start in Raised, a drop
   * of "1" on In Progress and of "2" on Done relocate them one by one, and the
   * second renders with the placeholder.
   */
  lemma TwoTicketWalkthrough()
    ensures var store := [Ticket(1, Some("A")), Ticket(2, None)];
            var b0 := Init(EmptyBoard, store);
            var b1 := Move(store, b0, "1", InProgress);
            var b2 := Move(store, b1, "2", Done);
            && b0 == Board(store, [], [])
            && b1 == Board([store[1]], [store[0]], [])
            && b2 == Board([], [store[0]], [store[1]])
            && DisplaySubject(store[1]) == Placeholder
  {
    var store := [Ticket(1, Some("A")), Ticket(2, None)];
    assert IdString(1) == "1" && IdString(2) == "2";
    assert Key(store[0]) == "1" && Key(store[1]) == "2";
    assert Find(store, "1") == Some(store[0]);
    assert Find(store[1..], "2") == Some(store[1]);
    assert FilterOut(store[1..], "1") == [store[1]];
    assert FilterOut(store, "1") == [store[1]];
    var b1 := Move(store, Board(store, [], []), "1", InProgress);
    assert b1 == Board([store[1]], [store[0]], []);
    assert FilterOut([store[1]], "2") == [];
    assert FilterOut([store[0]], "2") == [store[0]];
  }
}
