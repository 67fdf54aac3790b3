/** The two time-limited caches in front of the external services: card ids
    (five minutes) and, for offline players only, resolved permission groups
    (ten minutes).  Entries are stamped with the time they were stored; a
    player joining drops all of its entries. */
module Caches {

  import opened Wrappers
  import opened Players
  import opened RateTable
  import opened Salary

  const CacheDurationMs: int := 5 * 60 * 1000
  const GroupsCacheDurationMs: int := 10 * 60 * 1000

  /** The card id a lookup may take from the cache: one stored less than
      CacheDurationMs ago. */
  function CachedCard(cards: map<Uuid, string>, stamps: map<Uuid, int>, u: Uuid, now: int): Option<string>
  {
    if u in stamps && now - stamps[u] < CacheDurationMs && u in cards then Some(cards[u]) else None
  }

  /** The groups a lookup may take from the cache: only for an offline
      player, and only when stored less than GroupsCacheDurationMs ago. */
  function CachedGroups(groups: map<Uuid, seq<string>>, stamps: map<Uuid, int>, u: Uuid, online: bool, now: int): Option<seq<string>>
  {
    if !online && u in stamps && now - stamps[u] < GroupsCacheDurationMs && u in groups then Some(groups[u]) else None
  }

  /** The groups a lookup yields: the cached list if there is a fresh one,
      otherwise the permission service's answer with the default fallback. */
  function GroupsFor(groups: map<Uuid, seq<string>>, stamps: map<Uuid, int>, u: Uuid, online: bool, now: int,
                     vault: seq<string>, rates: Rates): seq<string>
  {
    match CachedGroups(groups, stamps, u, online, now)
    case Some(gs) => gs
    case None => ResolveGroups(vault, rates)
  }

  /** A cached card id is served from the moment it is stored until just
      before CacheDurationMs have passed, and no longer. */
  lemma CardCacheExpiry(cards: map<Uuid, string>, stamps: map<Uuid, int>, u: Uuid, now: int)
    requires u in cards && u in stamps
    ensures stamps[u] <= now < stamps[u] + CacheDurationMs ==> CachedCard(cards, stamps, u, now) == Some(cards[u])
    ensures now >= stamps[u] + CacheDurationMs ==> CachedCard(cards, stamps, u, now) == None
    ensures CachedCard(cards, stamps, u, stamps[u] + 300000) == None
    ensures CachedCard(cards, stamps, u, stamps[u] + 299999) == Some(cards[u])
  {
  }

  /** Online players never get cached groups; offline ones get them for ten
      minutes. */
  lemma GroupsCacheScope(groups: map<Uuid, seq<string>>, stamps: map<Uuid, int>, u: Uuid, online: bool, now: int)
    ensures online ==> CachedGroups(groups, stamps, u, online, now) == None
    ensures !online && u in groups && u in stamps && now - stamps[u] < 600000 ==>
      CachedGroups(groups, stamps, u, online, now) == Some(groups[u])
    ensures u in stamps && now - stamps[u] >= 600000 ==> CachedGroups(groups, stamps, u, online, now) == None
  {
  }

  class CardCache {
    var cards: map<Uuid, string>
    var stamps: map<Uuid, int>

    /** Ids and stamps are stored and dropped together, and only non-empty
        ids are stored. */
    ghost predicate Valid()
      reads this
    {
      cards.Keys == stamps.Keys && forall u :: u in cards ==> cards[u] != ""
    }

    constructor()
      ensures Valid() && cards == map[] && stamps == map[]
    {
      cards := map[];
      stamps := map[];
    }

    /** getPlayerCardId: a fresh cached id if there is one; otherwise the
        card service's answer, which is cached, stamped now, when it is a
        non-empty id. */
    method GetCardId(u: Uuid, now: int, service: Option<string>) returns (r: Option<string>)
      requires Valid()
      modifies this
      ensures Valid()
      ensures CachedCard(old(cards), old(stamps), u, now).Some? ==>
        r == CachedCard(old(cards), old(stamps), u, now) && cards == old(cards) && stamps == old(stamps)
      ensures CachedCard(old(cards), old(stamps), u, now).None? ==> r == service
      ensures CachedCard(old(cards), old(stamps), u, now).None? && service.Some? && service.value != "" ==>
        cards == old(cards)[u := service.value] && stamps == old(stamps)[u := now]
      ensures CachedCard(old(cards), old(stamps), u, now).None? && (service.None? || service.value == "") ==>
        cards == old(cards) && stamps == old(stamps)
    {
      if u in stamps && now - stamps[u] < CacheDurationMs && u in cards {
        return Some(cards[u]);
      }
      r := service;
      if service.Some? && service.value != "" {
        cards := cards[u := service.value];
        stamps := stamps[u := now];
      }
    }

    /** hasPlayerCard: any cached entry is trusted whatever its age;
        otherwise the card service is asked, and a positive answer caches
        the id the service gives, when it is non-empty. */
    method HasCard(u: Uuid, now: int, serviceHasCard: bool, serviceCard: Option<string>) returns (b: bool)
      requires Valid()
      modifies this
      ensures Valid()
      ensures u in old(cards) ==> b && cards == old(cards) && stamps == old(stamps)
      ensures u !in old(cards) ==> b == serviceHasCard
      ensures u !in old(cards) && serviceHasCard && serviceCard.Some? && serviceCard.value != "" ==>
        cards == old(cards)[u := serviceCard.value] && stamps == old(stamps)[u := now]
      ensures u !in old(cards) && !(serviceHasCard && serviceCard.Some? && serviceCard.value != "") ==>
        cards == old(cards) && stamps == old(stamps)
    {
      if u in cards {
        b := cards[u] != "";
        return;
      }
      b := serviceHasCard;
      if serviceHasCard && serviceCard.Some? && serviceCard.value != "" {
        cards := cards[u := serviceCard.value];
        stamps := stamps[u := now];
      }
    }

    method Invalidate(u: Uuid)
      requires Valid()
      modifies this
      ensures Valid()
      ensures cards == old(cards) - {u} && stamps == old(stamps) - {u}
    {
      cards := cards - {u};
      stamps := stamps - {u};
    }
  }

  class GroupsCache {
    var groups: map<Uuid, seq<string>>
    var stamps: map<Uuid, int>

    ghost predicate Valid()
      reads this
    {
      groups.Keys == stamps.Keys
    }

    constructor()
      ensures Valid() && groups == map[] && stamps == map[]
    {
      groups := map[];
      stamps := map[];
    }

    /** getPlayerGroups, given the permission service's answer (empty when
        it fails or times out): for an offline player a fresh cached list is
        returned as is; otherwise the answer, with the default fallback
        applied, is returned and, for an offline player, cached. */
    method Resolve(u: Uuid, online: bool, now: int, vault: seq<string>, rates: Rates) returns (gs: seq<string>)
      requires Valid()
      modifies this
      ensures Valid()
      ensures gs == GroupsFor(old(groups), old(stamps), u, online, now, vault, rates)
      ensures CachedGroups(old(groups), old(stamps), u, online, now).Some? || online ==>
        groups == old(groups) && stamps == old(stamps)
      ensures CachedGroups(old(groups), old(stamps), u, online, now).None? && !online ==>
        groups == old(groups)[u := gs] && stamps == old(stamps)[u := now]
    {
      if !online && u in stamps && now - stamps[u] < GroupsCacheDurationMs && u in groups {
        return groups[u];
      }
      gs := vault;
      if gs == [] && "default" in rates {
        gs := ["default"];
      }
      if !online {
        groups := groups[u := gs];
        stamps := stamps[u := now];
      }
    }

    method Invalidate(u: Uuid)
      requires Valid()
      modifies this
      ensures Valid()
      ensures groups == old(groups) - {u} && stamps == old(stamps) - {u}
    {
      groups := groups - {u};
      stamps := stamps - {u};
    }
  }

  /** onPlayerJoin's cache clearing: the joining player's entries leave all
      four maps and nobody else's change. */
  method OnJoin(cardCache: CardCache, groupsCache: GroupsCache, u: Uuid)
    requires cardCache.Valid() && groupsCache.Valid()
    modifies cardCache, groupsCache
    ensures cardCache.Valid() && groupsCache.Valid()
    ensures u !in cardCache.cards && u !in cardCache.stamps && u !in groupsCache.groups && u !in groupsCache.stamps
    ensures cardCache.cards == old(cardCache.cards) - {u} && cardCache.stamps == old(cardCache.stamps) - {u}
    ensures groupsCache.groups == old(groupsCache.groups) - {u} && groupsCache.stamps == old(groupsCache.stamps) - {u}
  {
    cardCache.Invalidate(u);
    groupsCache.Invalidate(u);
  }
}
