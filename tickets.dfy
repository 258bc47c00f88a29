/**
 * The ticket catalog: ten seeded concert tickets and the lookup by id.
 * Prices are kept in integer cents.
 */
module Tickets {
  import opened Wrappers

  /** `'VIP' | 'Premium' | 'Standard'`. */
  datatype TicketType = VIP | Premium | Standard

  datatype Note = Note(id: int, author: string, content: string, createdAt: string)

  datatype Ticket = Ticket(
    id: int,
    title: string,
    ticketType: TicketType,
    priceCents: nat,
    isUsed: bool,
    purchaseDate: string,
    eventDate: string,
    venue: string,
    artist: string,
    section: string,
    row: string,
    seat: string,
    description: string,
    features: seq<string>,
    notes: seq<Note>)

  const Catalog: seq<Ticket> := [
    Ticket(1, "DWP 2025 - VIP Access", VIP, 29999, false, "2025-07-15", "2025-08-31T20:00:00Z",
      "JIExpo Kemayoran, Jakarta", "Various Artists", "A", "1", "15",
      "VIP access to Djakarta Warehouse Project 2025 with exclusive viewing area and complimentary drinks.",
      ["Express Entry", "VIP Lounge", "Meet & Greet", "Free Drinks"],
      [Note(1, "System", "Ticket activated and ready for use", "2025-07-15")]),
    Ticket(2, "DWP 2025 - Premium Pass", Premium, 19999, false, "2025-07-20", "2025-08-31T20:00:00Z",
      "JIExpo Kemayoran, Jakarta", "Various Artists", "B", "3", "42",
      "Premium access to Djakarta Warehouse Project 2025 with priority entry and premium viewing areas.",
      ["Priority Entry", "Premium Area", "Merchandise Pack"],
      []),
    Ticket(3, "DWP 2025 - Standard Entry", Standard, 9999, true, "2025-07-25", "2025-08-31T20:00:00Z",
      "JIExpo Kemayoran, Jakarta", "Various Artists", "C", "10", "78",
      "Standard entry ticket to Djakarta Warehouse Project 2025.",
      ["General Admission"],
      [Note(1, "Staff", "Ticket has been scanned and used", "2025-08-01")]),
    Ticket(4, "Coldplay World Tour - VIP", VIP, 35000, false, "2025-06-10", "2025-09-15T19:30:00Z",
      "Gelora Bung Karno Stadium, Jakarta", "Coldplay", "Gold", "2", "7",
      "VIP ticket for Coldplay's Music of the Spheres World Tour in Jakarta.",
      ["VIP Entry", "Merchandise Pack", "Early Access", "Premium Viewing"],
      []),
    Ticket(5, "Coldplay World Tour - Premium", Premium, 25000, false, "2025-06-15", "2025-09-15T19:30:00Z",
      "Gelora Bung Karno Stadium, Jakarta", "Coldplay", "Silver", "5", "22",
      "Premium seating for Coldplay's Music of the Spheres World Tour in Jakarta.",
      ["Premium Seating", "Fast Track Entry"],
      []),
    Ticket(6, "Coldplay World Tour - Standard", Standard, 15000, false, "2025-06-20", "2025-09-15T19:30:00Z",
      "Gelora Bung Karno Stadium, Jakarta", "Coldplay", "Bronze", "15", "45",
      "Standard admission to Coldplay's Music of the Spheres World Tour in Jakarta.",
      ["General Admission"],
      []),
    Ticket(7, "Taylor Swift Eras Tour - VIP", VIP, 40000, false, "2025-05-05", "2025-10-20T19:00:00Z",
      "Gelora Bung Karno Stadium, Jakarta", "Taylor Swift", "Diamond", "1", "10",
      "VIP package for Taylor Swift's Eras Tour in Jakarta with exclusive merchandise and early entry.",
      ["VIP Package", "Early Entry", "Exclusive Merch", "Premium Viewing"],
      []),
    Ticket(8, "Taylor Swift Eras Tour - Premium", Premium, 27500, false, "2025-05-10", "2025-10-20T19:00:00Z",
      "Gelora Bung Karno Stadium, Jakarta", "Taylor Swift", "Platinum", "4", "30",
      "Premium seating for Taylor Swift's Eras Tour in Jakarta.",
      ["Premium Seating", "Tour Program"],
      []),
    Ticket(9, "Taylor Swift Eras Tour - Standard", Standard, 17500, true, "2025-05-15", "2025-10-20T19:00:00Z",
      "Gelora Bung Karno Stadium, Jakarta", "Taylor Swift", "Gold", "20", "55",
      "Standard admission to Taylor Swift's Eras Tour in Jakarta.",
      ["General Admission"],
      [Note(1, "System", "Ticket transferred from original purchaser", "2025-07-01")]),
    Ticket(10, "Ed Sheeran Mathematics Tour - VIP", VIP, 30000, false, "2025-04-20", "2025-11-05T20:00:00Z",
      "Sentul International Convention Center, Bogor", "Ed Sheeran", "Front", "2", "15",
      "VIP experience for Ed Sheeran's Mathematics Tour with soundcheck access and exclusive merchandise.",
      ["Soundcheck Access", "VIP Merchandise", "Priority Entry"],
      [])
  ]

  /** `tickets.find(ticket => ticket.id === id)`: the first ticket with this id, or None. */
  function FindById(ts: seq<Ticket>, id: int): (r: Option<Ticket>)
    ensures r.None? <==> forall i :: 0 <= i < |ts| ==> ts[i].id != id
    ensures r.Some? ==> exists i :: 0 <= i < |ts| && ts[i] == r.value && ts[i].id == id
                            && forall j :: 0 <= j < i ==> ts[j].id != id
  {
    if ts == [] then None
    else if ts[0].id == id then Some(ts[0])
    else
      var r := FindById(ts[1..], id);
      assert r.Some? ==> exists i :: 0 <= i < |ts| - 1 && ts[1..][i] == r.value && ts[i + 1].id == id
                                      && forall j :: 0 <= j < i ==> ts[1..][j].id != id;
      r
  }

  /** `getTicketById`: a catalog ticket carrying the id, or nothing when no ticket carries it. */
  function GetTicketById(id: int): (r: Option<Ticket>)
    ensures r.None? <==> forall i :: 0 <= i < |Catalog| ==> Catalog[i].id != id
    ensures r.Some? ==> r.value in Catalog && r.value.id == id
  {
    FindById(Catalog, id)
  }

  predicate IdsDistinct(ts: seq<Ticket>) {
    forall i, j :: 0 <= i < j < |ts| ==> ts[i].id != ts[j].id
  }

  /** With distinct ids, looking up a ticket's id finds exactly that ticket. */
  lemma {:induction false} FindByIdUnique(ts: seq<Ticket>, k: nat)
    requires IdsDistinct(ts) && k < |ts|
    ensures FindById(ts, ts[k].id) == Some(ts[k])
  {
    if k > 0 {
      assert ts[0].id != ts[k].id;
      assert ts[1..][k - 1] == ts[k];
      FindByIdUnique(ts[1..], k - 1);
    }
  }

  lemma PositionalIdsDistinct(ts: seq<Ticket>)
    requires forall i :: 0 <= i < |ts| ==> ts[i].id == i + 1
    ensures IdsDistinct(ts)
  {
  }

  /** The catalog holds ten tickets whose ids are 1 to 10 in list order. */
  lemma CatalogIdsArePositions()
    ensures |Catalog| == 10
    ensures forall i :: 0 <= i < |Catalog| ==> Catalog[i].id == i + 1
  {
  }

  /** For every id from 1 to 10 the lookup returns the ticket at that place in the list. */
  lemma LookupInCatalog(k: int)
    requires 1 <= k <= 10
    ensures GetTicketById(k) == Some(Catalog[k - 1])
  {
    CatalogIdsArePositions();
    PositionalIdsDistinct(Catalog);
    FindByIdUnique(Catalog, k - 1);
  }

  /** Every id outside 1 to 10 is unknown. */
  lemma LookupOutsideCatalog(id: int)
    requires id < 1 || id > 10
    ensures GetTicketById(id).None?
  {
    CatalogIdsArePositions();
  }

  /** Exactly tickets 3 and 9 are marked used in the seed. */
  lemma CatalogUsedTickets()
    ensures forall i :: 0 <= i < |Catalog| ==> (Catalog[i].isUsed <==> Catalog[i].id == 3 || Catalog[i].id == 9)
  {
  }

  /** The ticket types, in catalog order. */
  function TypesOf(ts: seq<Ticket>): seq<TicketType> {
    seq(|ts|, i requires 0 <= i < |ts| => ts[i].ticketType)
  }

  /** The `isUsed` flags, in catalog order. */
  function UsageOf(ts: seq<Ticket>): seq<bool> {
    seq(|ts|, i requires 0 <= i < |ts| => ts[i].isUsed)
  }

  lemma CatalogTypes()
    ensures TypesOf(Catalog) == [VIP, Premium, Standard, VIP, Premium, Standard, VIP, Premium, Standard, VIP]
  {
  }

  lemma CatalogUsage()
    ensures UsageOf(Catalog) == [false, false, true, false, false, false, false, false, true, false]
  {
  }

  /** Note ids run 1, 2, ... with no gaps. */
  predicate NotesNumbered(notes: seq<Note>) {
    forall j :: 0 <= j < |notes| ==> notes[j].id == j + 1
  }

  /** In every seeded ticket the note ids run from 1 with no gaps. */
  lemma CatalogNotesNumbered()
    ensures forall i :: 0 <= i < |Catalog| ==> NotesNumbered(Catalog[i].notes)
  {
  }
}
