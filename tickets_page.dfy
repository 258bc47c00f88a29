/**
 * The ticket browsing page: the catalog filtered by ticket type, and the
 * per-type counters shown above it.
 */
module TicketsPage {
  import opened Seqs
  import opened Tickets

  /** The type selector: `'All'` or one of the three ticket types. */
  datatype TypeFilter = AllTypes | OnlyType(ticketType: TicketType)

  function HasType(t: TicketType): Ticket -> bool {
    (x: Ticket) => x.ticketType == t
  }

  /** `filteredTickets`: everything for `All`, otherwise the tickets of the selected type in catalog order. */
  function Shown(tickets: seq<Ticket>, filter: TypeFilter): (r: seq<Ticket>)
    ensures filter.AllTypes? ==> r == tickets
    ensures filter.OnlyType? ==> forall k :: 0 <= k < |r| ==> r[k].ticketType == filter.ticketType
    ensures filter.OnlyType? ==> forall k :: 0 <= k < |tickets| && tickets[k].ticketType == filter.ticketType ==> tickets[k] in r
  {
    match filter
    case AllTypes => tickets
    case OnlyType(t) =>
      var r := Filter(tickets, HasType(t));
      forall k | 0 <= k < |tickets| && tickets[k].ticketType == t ensures tickets[k] in r {
        FilterKeepsMatch(tickets, HasType(t), k);
      }
      r
  }

  /** The four figures above the list: "Available Tickets" and the three per-type counters. */
  datatype Counters = Counters(available: nat, vip: nat, premium: nat, standard: nat)

  /**
   * `tickets.length` and `vipCount`, `premiumCount`, `standardCount`. They are
   * computed from the whole catalog, so the type filter cannot change them, and
   * because every ticket has exactly one of the three types they add up to the total.
   */
  function CountersOf(tickets: seq<Ticket>): (c: Counters)
    ensures c.available == |tickets|
    ensures c.vip + c.premium + c.standard == c.available
    ensures c.vip == |Shown(tickets, OnlyType(VIP))|
    ensures c.premium == |Shown(tickets, OnlyType(Premium))|
    ensures c.standard == |Shown(tickets, OnlyType(Standard))|
  {
    FilterPartition3(tickets, HasType(VIP), HasType(Premium), HasType(Standard));
    Counters(|tickets|,
             |Filter(tickets, HasType(VIP))|,
             |Filter(tickets, HasType(Premium))|,
             |Filter(tickets, HasType(Standard))|)
  }

  /** The shown list is an order-preserving selection of the catalog that misses no ticket of the selected type. */
  lemma ShownIsOrderedSelection(tickets: seq<Ticket>, t: TicketType)
    ensures |Shown(tickets, OnlyType(t))| == |Selected(tickets, HasType(t), 0)|
    ensures forall k :: 0 <= k < |Shown(tickets, OnlyType(t))| ==>
      Shown(tickets, OnlyType(t))[k] == tickets[Selected(tickets, HasType(t), 0)[k]]
    ensures forall i :: 0 <= i < |tickets| ==> (i in Selected(tickets, HasType(t), 0) <==> tickets[i].ticketType == t)
  {
    FilterIsSelection(tickets, HasType(t));
  }

  /** Each per-type counter equals the number of occurrences of that type among the tickets. */
  lemma {:induction false} TypeCountIsOccurrences(tickets: seq<Ticket>, t: TicketType)
    ensures |Filter(tickets, HasType(t))| == multiset(TypesOf(tickets))[t]
  {
    if tickets != [] {
      assert TypesOf(tickets) == [tickets[0].ticketType] + TypesOf(tickets[1..]);
      TypeCountIsOccurrences(tickets[1..], t);
    }
  }

  /** The page's list is the seeded catalog, so its counters read 10 available, 4 VIP, 3 Premium, 3 Standard. */
  lemma CatalogCounters(tickets: seq<Ticket>)
    requires tickets == Catalog
    ensures CountersOf(tickets) == Counters(10, 4, 3, 3)
  {
    CatalogTypes();
    CountersFromTypes(tickets);
  }

  /** Any list whose types run as the seed's do gets the seed's counters. */
  lemma CountersFromTypes(tickets: seq<Ticket>)
    requires TypesOf(tickets) == [VIP, Premium, Standard, VIP, Premium, Standard, VIP, Premium, Standard, VIP]
    ensures CountersOf(tickets) == Counters(10, 4, 3, 3)
  {
    SeedTypeOccurrences(TypesOf(tickets));
    TypeCountIsOccurrences(tickets, VIP);
    TypeCountIsOccurrences(tickets, Premium);
    TypeCountIsOccurrences(tickets, Standard);
  }

  lemma SeedTypeOccurrences(types: seq<TicketType>)
    requires types == [VIP, Premium, Standard, VIP, Premium, Standard, VIP, Premium, Standard, VIP]
    ensures multiset(types)[VIP] == 4 && multiset(types)[Premium] == 3 && multiset(types)[Standard] == 3
  {
  }
}
