# Ticket side bar triage board

A model of the ticket side bar of a helpdesk app panel. The component fetches
the account's tickets, shows them on a board of three columns (Raised, In
Progress, Done) and lets the operator drag a ticket from one column to
another. The model covers the board state `ticketStatus`, the updater that
places the fetched tickets, the drop handler, and the two strings each ticket
card renders: its subject (with a placeholder) and its link.

Modules:

- `Options` (options.dfy): the optional value used for a ticket's subject and
  for host answers that may be missing.
- `TicketIds` (ticket_ids.dfy): `id.toString()` for the integer ticket ids,
  as a decimal rendering, and the proof that it is injective.
- `TriageBoard` (triage_board.dfy): tickets, columns, the board, the
  initial placement `Init`, the drop transition `Move` with its helpers
  `Find` (`Array.prototype.find`) and `FilterOut`
  (`Array.prototype.filter`), and the lemmas about them.
- `SideBar` (ticket_side_bar.dfy): the class `TicketSideBar` holding the
  component's state (`tickets`, `subdomain`, `ticketStatus` as `status`),
  its mount effect `Load` and drop handler `Drop`, and the subject and link
  strings.

A board is a *partition* of the ticket store when the store has no repeated
id and the board's entries, taken together, are exactly the store's tickets,
each once.

Two behaviours of the code differ from what a triage board would be expected
to do, and the model keeps them as the code has them:

- One would expect initialization to put every ticket in Raised and discard
  earlier placements. The code only overwrites `raised` and copies
  `inProgress` and `done` from the previous state. From the initial empty
  state the two agree (`InitFromEmpty`). After a ticket has been moved, a
  second initialization would put it on the board twice
  (`ReinitDuplicatesMovedTicket`). The mount effect runs once, so this second
  initialization does not happen in the component as written.
- One would expect dropping a ticket on the column that already holds it to be
  a no-op. The code does not filter the target column, so that
  drop appends a second copy (`SelfDropDuplicates`, `RepeatDropDuplicates`).

## Model

| member | source | states |
|---|---|---|
| TicketIds.IdString | user_events/src/app/locations/TicketSideBar.jsx:93 | The id string of a ticket is a non-empty string of digits with no leading zero unless it is exactly "0", and it is "0" exactly for id 0 |
| TicketIds.IdStringInjective | user_events/src/app/locations/TicketSideBar.jsx:93 | Two ids have the same id string if and only if they are equal, so matching a payload against `id.toString()` picks out one id |
| TriageBoard.Init | user_events/src/app/locations/TicketSideBar.jsx:66-69 | Initialization makes the Raised column the fetched list in its order and carries In Progress and Done over from the previous state unchanged |
| TriageBoard.InitFromEmpty | user_events/src/app/locations/TicketSideBar.jsx:66-69 | From the initial state of three empty columns, initialization gives Raised = fetched list and two empty columns, and that board is a partition of the fetched tickets when their ids are distinct |
| TriageBoard.ReinitDuplicatesMovedTicket | user_events/src/app/locations/TicketSideBar.jsx:66-69 | Because initialization does not reset the other columns, re-initializing a partitioned board after a ticket left Raised counts that ticket twice and breaks the partition |
| TriageBoard.Find | user_events/src/app/locations/TicketSideBar.jsx:93 | The lookup returns nothing exactly when no store ticket's id string equals the payload; otherwise it returns the first store ticket whose id string equals it |
| TriageBoard.FilterOut | user_events/src/app/locations/TicketSideBar.jsx:98-100 | The filter removes every entry whose id string equals the payload, keeps the count of every other entry, keeps the survivors in their original relative order, and returns the list unchanged when nothing matches |
| TriageBoard.Move | user_events/src/app/locations/TicketSideBar.jsx:91-103 | An unmatched payload leaves the board unchanged; a matched one appends the first matching store ticket to the target column, which is not filtered, and filters that id out of each of the other two columns |
| TriageBoard.MalformedPayloadIsNoop | user_events/src/app/locations/TicketSideBar.jsx:92-95 | A payload that is empty, holds a non-digit or has a leading zero matches no ticket, and the drop leaves the board unchanged |
| TriageBoard.PartitionPlacesEachOnce | user_events/src/app/locations/TicketSideBar.jsx:39-43 | On a partitioned board each store ticket is in exactly one of the three columns, once, and every board entry is a store ticket |
| TriageBoard.MovePreservesPartition | user_events/src/app/locations/TicketSideBar.jsx:96-101 | A drop whose ticket is not already in the target column keeps the board a partition of the store: the multiset of entries is unchanged and every ticket still appears exactly once |
| TriageBoard.SelfDropDuplicates | user_events/src/app/locations/TicketSideBar.jsx:98-100 | Dropping a ticket on the column that already holds it leaves the other two columns unchanged, appends the ticket to that column so it appears there twice, and breaks the partition |
| TriageBoard.RepeatDropDuplicates | user_events/src/app/locations/TicketSideBar.jsx:98-100 | Applying the same relocating drop twice is not idempotent: the target column ends with two copies of the ticket and the board is no longer a partition |
| TriageBoard.ReplayKeepsPartition | user_events/src/app/locations/TicketSideBar.jsx:91-103 | Any run of drops in which no drop targets the column already holding its ticket keeps a partitioned board partitioned |
| SideBar.DisplaySubject | user_events/src/app/locations/TicketSideBar.jsx:131 | The shown subject is the placeholder "No Subject" exactly when the subject is absent, empty, or itself "No Subject"; any other non-empty subject is shown as it is; the shown text is never empty |
| SideBar.TicketLink | user_events/src/app/locations/TicketSideBar.jsx:130 | The link is the prefix https://{subdomain}.zendesk.com/agent/tickets/ followed by the ticket's id string and nothing else |
| SideBar.LinkIdentifiesTicket | user_events/src/app/locations/TicketSideBar.jsx:130 | Within one subdomain two tickets get the same link if and only if they have the same id |
| SideBar.TicketSideBar.constructor | user_events/src/app/locations/TicketSideBar.jsx:37-43 | The component starts with no tickets, an empty subdomain and three empty columns |
| SideBar.TicketSideBar.Load | user_events/src/app/locations/TicketSideBar.jsx:49-73 | A failed context request changes nothing; a successful one stores the subdomain; a successful ticket request then stores the list and applies the initial placement to the current board; a failed ticket request leaves tickets and board unchanged |
| SideBar.TicketSideBar.Drop | user_events/src/app/locations/TicketSideBar.jsx:91-103 | The drop handler replaces the board by the drop transition applied to the current tickets, and keeps the board a partition when the ticket is not already in the target column |
| SideBar.TwoTicketWalkthrough | user_events/src/app/locations/TicketSideBar.jsx:91-103 | For tickets 1 (subject "A") and 2 (no subject): after loading both are in Raised; dropping "1" on In Progress and then "2" on Done moves them one at a time; ticket 2 shows "No Subject" |

## Left out

- The host calls (`client.invoke('resize')`, `client.context()`, `client.request`) are I/O. `Load` takes their outcomes as parameters, and `console.error` logging is not modelled.
- A ticket response without a `tickets` field (which would store `undefined`) is not modelled. A successful response is a list of tickets.
- The registration of draggable elements and drop targets is wiring into the gesture library and the DOM. This includes re-registration on every change of `tickets` and the handler's capture of `tickets` at registration time. `Drop` reads the current `tickets`.
- `dataTransfer.setData` and `getData` are not modelled. The payload is a string input to `Move` and `Drop`.
- Styling, theme, JSX rendering and React hook scheduling are not modelled, apart from the subject and link strings.
- Ticket ids are non-negative integers rendered in decimal. The rendering of ids above 2^53, where JavaScript numbers lose precision, is not modelled.
- A subject is a string or absent. JavaScript's other falsy values for `subject` are not modelled.
