/**
 * The "My Tickets" page: the ticket list held as component state, the
 * usage filter, the used/unused statistics the page's effect recomputes
 * whenever the list changes, and the per-ticket usage toggle.
 */
module TicketList {
  import opened Seqs
  import opened Tickets

  /** The usage selector: `'All'`, `'Used'` or `'Unused'`. */
  datatype UsageFilter = AllUsage | UsedOnly | UnusedOnly

  const IsUsedTicket: Ticket -> bool := (t: Ticket) => t.isUsed
  const IsUnusedTicket: Ticket -> bool := (t: Ticket) => !t.isUsed

  /** `filteredTickets`: the whole list, or the used or the unused tickets in list order. */
  function ShownByUsage(tickets: seq<Ticket>, filter: UsageFilter): (r: seq<Ticket>)
    ensures filter.AllUsage? ==> r == tickets
    ensures filter.UsedOnly? ==> forall k :: 0 <= k < |r| ==> r[k].isUsed
    ensures filter.UnusedOnly? ==> forall k :: 0 <= k < |r| ==> !r[k].isUsed
  {
    match filter
    case AllUsage => tickets
    case UsedOnly => Filter(tickets, IsUsedTicket)
    case UnusedOnly => Filter(tickets, IsUnusedTicket)
  }

  /**
   * The `Used` and `Unused` views split the list: no ticket is in both, together
   * they hold every ticket of the list exactly as often as the list does, and
   * each misses no ticket of its kind.
   */
  lemma UsageViewsPartition(tickets: seq<Ticket>)
    ensures multiset(ShownByUsage(tickets, UsedOnly)) + multiset(ShownByUsage(tickets, UnusedOnly)) == multiset(tickets)
    ensures |ShownByUsage(tickets, UsedOnly)| + |ShownByUsage(tickets, UnusedOnly)| == |tickets|
    ensures forall k :: 0 <= k < |ShownByUsage(tickets, UsedOnly)| ==>
      ShownByUsage(tickets, UsedOnly)[k] !in ShownByUsage(tickets, UnusedOnly)
    ensures forall k :: 0 <= k < |tickets| ==>
      tickets[k] in (if tickets[k].isUsed then ShownByUsage(tickets, UsedOnly) else ShownByUsage(tickets, UnusedOnly))
  {
    FilterPartition(tickets, IsUsedTicket, IsUnusedTicket);
    forall k | 0 <= k < |tickets|
      ensures tickets[k] in (if tickets[k].isUsed then ShownByUsage(tickets, UsedOnly) else ShownByUsage(tickets, UnusedOnly))
    {
      if tickets[k].isUsed {
        FilterKeepsMatch(tickets, IsUsedTicket, k);
      } else {
        FilterKeepsMatch(tickets, IsUnusedTicket, k);
      }
    }
  }

  /** The `Used` view is the list's used tickets picked at increasing positions; likewise `Unused`. */
  lemma UsageViewIsOrderedSelection(tickets: seq<Ticket>, used: bool)
    ensures var p := if used then IsUsedTicket else IsUnusedTicket;
            var shown := ShownByUsage(tickets, if used then UsedOnly else UnusedOnly);
            && |shown| == |Selected(tickets, p, 0)|
            && (forall k :: 0 <= k < |shown| ==> shown[k] == tickets[Selected(tickets, p, 0)[k]])
            && (forall i :: 0 <= i < |tickets| ==> (i in Selected(tickets, p, 0) <==> tickets[i].isUsed == used))
  {
    FilterIsSelection(tickets, if used then IsUsedTicket else IsUnusedTicket);
  }

  datatype Stats = Stats(totalTickets: nat, usedTickets: nat, unusedTickets: nat)

  /** What the page's effect stores in `stats`: the list length and the sizes of the two usage views. */
  function StatsOf(tickets: seq<Ticket>): (st: Stats)
    ensures st.totalTickets == |tickets|
    ensures st.usedTickets + st.unusedTickets == st.totalTickets
    ensures st.usedTickets == |ShownByUsage(tickets, UsedOnly)|
    ensures st.unusedTickets == |ShownByUsage(tickets, UnusedOnly)|
  {
    FilterSplitsLength(tickets, IsUsedTicket, IsUnusedTicket);
    Stats(|tickets|, |Filter(tickets, IsUsedTicket)|, |Filter(tickets, IsUnusedTicket)|)
  }

  /** The used count is the number of `true` flags in the list. */
  lemma {:induction false} UsedCountIsOccurrences(tickets: seq<Ticket>)
    ensures StatsOf(tickets).usedTickets == multiset(UsageOf(tickets))[true]
  {
    if tickets != [] {
      assert UsageOf(tickets) == [tickets[0].isUsed] + UsageOf(tickets[1..]);
      UsedCountIsOccurrences(tickets[1..]);
    }
  }

  /** `toggleTicketUsage(id)`: every ticket with this id has `isUsed` negated; nothing else changes. */
  function Toggle(tickets: seq<Ticket>, id: int): (r: seq<Ticket>)
    ensures |r| == |tickets|
    ensures forall i :: 0 <= i < |r| ==> r[i].isUsed == (tickets[i].isUsed != (tickets[i].id == id))
    ensures forall i :: 0 <= i < |r| ==> r[i].(isUsed := tickets[i].isUsed) == tickets[i]
  {
    seq(|tickets|, i requires 0 <= i < |tickets| =>
      if tickets[i].id == id then tickets[i].(isUsed := !tickets[i].isUsed) else tickets[i])
  }

  /** Toggling the same id twice restores the list. */
  lemma ToggleTwice(tickets: seq<Ticket>, id: int)
    ensures Toggle(Toggle(tickets, id), id) == tickets
  {
    var r := Toggle(Toggle(tickets, id), id);
    forall i | 0 <= i < |tickets| ensures r[i] == tickets[i] {
      assert Toggle(tickets, id)[i].id == tickets[i].id;
    }
  }

  /** Toggling an id no ticket has leaves the list unchanged. */
  lemma ToggleAbsent(tickets: seq<Ticket>, id: int)
    requires forall i :: 0 <= i < |tickets| ==> tickets[i].id != id
    ensures Toggle(tickets, id) == tickets
  {
    var r := Toggle(tickets, id);
    forall i | 0 <= i < |tickets| ensures r[i] == tickets[i] {
      assert r[i].(isUsed := tickets[i].isUsed) == tickets[i];
    }
  }

  /**
   * With distinct ids, toggling the ticket at position k moves exactly one
   * ticket between the used and the unused counts and keeps the total.
   */
  lemma ToggleMovesOneTicket(tickets: seq<Ticket>, k: nat)
    requires IdsDistinct(tickets) && k < |tickets|
    ensures var before, after := StatsOf(tickets), StatsOf(Toggle(tickets, tickets[k].id));
            && after.totalTickets == before.totalTickets
            && (tickets[k].isUsed ==> after.usedTickets + 1 == before.usedTickets && after.unusedTickets == before.unusedTickets + 1)
            && (!tickets[k].isUsed ==> after.usedTickets == before.usedTickets + 1 && after.unusedTickets + 1 == before.unusedTickets)
  {
    ToggleUsedCount(tickets, k);
  }

  lemma {:induction false} ToggleUsedCount(tickets: seq<Ticket>, k: nat)
    requires IdsDistinct(tickets) && k < |tickets|
    ensures |Filter(Toggle(tickets, tickets[k].id), IsUsedTicket)|
         == |Filter(tickets, IsUsedTicket)| + (if tickets[k].isUsed then -1 else 1)
  {
    var id := tickets[k].id;
    var rest := tickets[1..];
    assert Toggle(tickets, id)[1..] == Toggle(rest, id);
    if k == 0 {
      ToggleAbsent(rest, id);
    } else {
      ToggleUsedCount(rest, k - 1);
    }
  }

  /**
   * The page's state. `tickets` starts as the catalog and is replaced only by
   * the toggle; `stats` is what the effect on `[tickets]` last stored.
   */
  class TicketListPage {
    var tickets: seq<Ticket>
    var filterUsage: UsageFilter
    var stats: Stats

    /** The effect has run for the current list. */
    ghost predicate StatsCurrent()
      reads this
    {
      stats == StatsOf(tickets)
    }

    /** The page as first rendered: the catalog, filter `All`, and all-zero statistics until the effect runs. */
    constructor ()
      ensures tickets == Catalog && filterUsage == AllUsage
      ensures stats == Stats(0, 0, 0)
    {
      tickets := Catalog;
      filterUsage := AllUsage;
      stats := Stats(0, 0, 0);
    }

    /** The effect on `[tickets]`: recounts the statistics of the current list. */
    method RecomputeStats()
      modifies this
      ensures StatsCurrent()
      ensures tickets == old(tickets) && filterUsage == old(filterUsage)
    {
      stats := StatsOf(tickets);
    }

    /** The list the page renders. */
    function FilteredTickets(): seq<Ticket>
      reads this
    {
      ShownByUsage(tickets, filterUsage)
    }

    method SetFilterUsage(filter: UsageFilter)
      modifies this
      ensures filterUsage == filter
      ensures tickets == old(tickets) && stats == old(stats)
    {
      filterUsage := filter;
    }

    /** Replaces the list by its toggled copy; the statistics wait for the effect. */
    method ToggleTicketUsage(id: int)
      modifies this
      ensures tickets == Toggle(old(tickets), id)
      ensures filterUsage == old(filterUsage) && stats == old(stats)
    {
      tickets := Toggle(tickets, id);
    }
  }

  /** Once the effect has run on the seeded list, the statistics read 10 tickets, 2 used, 8 unused. */
  lemma CatalogUsageStats(tickets: seq<Ticket>)
    requires tickets == Catalog
    ensures StatsOf(tickets) == Stats(10, 2, 8)
  {
    CatalogUsage();
    StatsFromUsage(tickets);
  }

  /** Any list whose usage flags run as the seed's do gets the seed's statistics. */
  lemma StatsFromUsage(tickets: seq<Ticket>)
    requires UsageOf(tickets) == [false, false, true, false, false, false, false, false, true, false]
    ensures StatsOf(tickets) == Stats(10, 2, 8)
  {
    UsedCountIsOccurrences(tickets);
    SeedUsageOccurrences(UsageOf(tickets));
  }

  lemma SeedUsageOccurrences(flags: seq<bool>)
    requires flags == [false, false, true, false, false, false, false, false, true, false]
    ensures |flags| == 10 && multiset(flags)[true] == 2
  {
  }
}
