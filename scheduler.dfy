/** The salary runs: the chain that decides, for one recipient, whether a
    payment is queued (cooldown gate, salary, card checks), the periodic and
    the forced run over all candidates, the manual payment command and the
    reload command. */
module Scheduler {

  import opened Wrappers
  import opened Decimals
  import opened Players
  import opened RateTable
  import opened Salary
  import opened Ledger
  import opened Caches
  import opened PaymentQueue

  /** The configured values: the server's card, the pause between
      transfers, the salary interval and whether offline players are paid. */
  datatype Settings = Settings(serverCardId: string, cooldownMs: int, intervalSeconds: int, payOffline: bool)

  /** What the outside services answer about one player during a salary
      chain: the permission groups (empty when the lookup fails), whether the
      card service knows a card, and the two card ids it gives. The card
      service is asked for the id twice, each time on its own: by the
      has-card check after a positive answer (checkCard) and by the id
      lookup (lookupCard). */
  datatype Services = Services(vaultGroups: seq<string>, hasCard: bool, checkCard: Option<string>,
                               lookupCard: Option<string>)

  datatype RecipientResult = CooldownActive | NoSalary | NoCard | NoServerCard | NoCardId | Queued(task: PaymentTask)

  /** The contents of the two caches: card ids and their times, groups and
      their times. */
  datatype CacheView = CacheView(cards: map<Uuid, string>, cardStamps: map<Uuid, int>,
                                 groups: map<Uuid, seq<string>>, groupStamps: map<Uuid, int>)

  /** The ledger and the caches, as a run carries them from one recipient to
      the next. */
  datatype RunState = RunState(last: map<Uuid, int>, view: CacheView)

  function ViewOf(cards: CardCache, groups: GroupsCache): CacheView
    reads cards, groups
  {
    CacheView(cards.cards, cards.stamps, groups.groups, groups.stamps)
  }

  function Lookup<V>(m: map<Uuid, V>, u: Uuid): Option<V>
  {
    if u in m then Some(m[u]) else None
  }

  /** Everything the caches hold about one player. */
  function EntryOf(v: CacheView, u: Uuid): (Option<string>, Option<int>, Option<seq<string>>, Option<int>)
  {
    (Lookup(v.cards, u), Lookup(v.cardStamps, u), Lookup(v.groups, u), Lookup(v.groupStamps, u))
  }

  /** The players a run considers: everyone who has played before when
      offline players are paid, otherwise the online players. */
  function Candidates(players: seq<Player>, payOffline: bool): (r: seq<Player>)
    ensures |r| <= |players|
    ensures forall p :: p in r <==> p in players && (if payOffline then p.playedBefore else p.online)
  {
    if players == [] then []
    else
      var p := players[|players| - 1];
      Candidates(players[..|players| - 1], payOffline) + (if (if payOffline then p.playedBefore else p.online) then [p] else [])
  }

  /** A queued payment goes to the player it was computed for and is
      positive. */
  predicate Fits(r: RecipientResult, p: Player) {
    r.Queued? ==> r.task.uuid == p.uuid && Signum(r.task.amount) > 0
  }

  function QueuedTasks(results: seq<RecipientResult>): seq<PaymentTask>
  {
    if results == [] then []
    else
      var r := results[|results| - 1];
      QueuedTasks(results[..|results| - 1]) + (if r.Queued? then [r.task] else [])
  }

  // ---------------------------------------------------------------------
  // What the chain decides, from the caches as they were before it

  /** The amount the chain computes for p: the salary of the groups the
      groups cache yields. */
  function SalaryFor(table: Rates, groups: map<Uuid, seq<string>>, stamps: map<Uuid, int>, p: Player, now: int,
                     services: Services): Decimal
  {
    SalaryOf(table, GroupsFor(groups, stamps, p.uuid, p.online, now, services.vaultGroups, table))
  }

  /** Whether the groups lookup stores its answer: for an offline player
      without a fresh cached list. */
  predicate StoresGroups(groups: map<Uuid, seq<string>>, stamps: map<Uuid, int>, p: Player, now: int) {
    !p.online && CachedGroups(groups, stamps, p.uuid, p.online, now).None?
  }

  /** Whether the has-card check finds a card: any cached id does, whatever
      its age; otherwise the card service decides. */
  predicate HasCardFor(cards: map<Uuid, string>, u: Uuid, services: Services) {
    u in cards || services.hasCard
  }

  /** An answer of the card service that is worth caching: a non-empty id. */
  predicate IsCardId(c: Option<string>) {
    c.Some? && c.value != ""
  }

  /** The card id the chain pays to: a fresh cached id; otherwise the id the
      has-card check has just cached, when it asked the service and got one;
      otherwise the id lookup's own answer. */
  function CardFor(cards: map<Uuid, string>, stamps: map<Uuid, int>, u: Uuid, now: int, services: Services): Option<string>
  {
    match CachedCard(cards, stamps, u, now)
    case Some(c) => Some(c)
    case None => if u !in cards && services.hasCard && IsCardId(services.checkCard) then services.checkCard
                 else services.lookupCard
  }

  /** The periodic and forced runs check that the server card is configured;
      the manual payment passes None and does not. */
  predicate ServerCardMissing(serverCardId: Option<string>) {
    serverCardId.Some? && serverCardId.value == ""
  }

  /** The id the card checks store, if any: the has-card check stores the
      service's id when it asks the service, hears yes and gets an id;
      otherwise the id lookup, reached past the server-card check, stores
      its own answer when it finds no fresh cached id and gets an id. */
  function StoredCard(cards: map<Uuid, string>, stamps: map<Uuid, int>, u: Uuid, now: int,
                      serverCardId: Option<string>, services: Services): Option<string>
  {
    if u !in cards && services.hasCard && IsCardId(services.checkCard) then services.checkCard
    else if HasCardFor(cards, u, services) && !ServerCardMissing(serverCardId) &&
            CachedCard(cards, stamps, u, now).None? && IsCardId(services.lookupCard) then services.lookupCard
    else None
  }

  /** The outcome of the chain after the cooldown gate, in the order the
      source checks: salary, card, server card, card id. */
  function Decision(rates: Rates, v: CacheView, p: Player, now: int, serverCardId: Option<string>,
                    services: Services): RecipientResult
  {
    var salary := SalaryFor(rates, v.groups, v.groupStamps, p, now, services);
    if Signum(salary) <= 0 then NoSalary
    else if !HasCardFor(v.cards, p.uuid, services) then NoCard
    else if ServerCardMissing(serverCardId) then NoServerCard
    else
      var card := CardFor(v.cards, v.cardStamps, p.uuid, now, services);
      if card.None? || card.value == "" then NoCardId else Queued(MakeTask(p, salary, card.value))
  }

  /** The caches after the chain: the groups lookup may store p's groups,
      and after a positive salary the card checks may store the service's
      card id; no other entry changes. */
  function ViewAfter(rates: Rates, v: CacheView, p: Player, now: int, serverCardId: Option<string>,
                     services: Services): CacheView
  {
    var u := p.uuid;
    var gs := GroupsFor(v.groups, v.groupStamps, u, p.online, now, services.vaultGroups, rates);
    var storeGroups := StoresGroups(v.groups, v.groupStamps, p, now);
    var stored := if Signum(SalaryOf(rates, gs)) > 0 then StoredCard(v.cards, v.cardStamps, u, now, serverCardId, services)
                  else None;
    CacheView(
      if stored.Some? then v.cards[u := stored.value] else v.cards,
      if stored.Some? then v.cardStamps[u := now] else v.cardStamps,
      if storeGroups then v.groups[u := gs] else v.groups,
      if storeGroups then v.groupStamps[u := now] else v.groupStamps)
  }

  /** processPlayerSalary on values: with the cooldown checked, an ineligible
      player is dropped with nothing changed and an eligible one is stamped;
      then the chain decides and updates the caches. */
  function Step(rates: Rates, s: RunState, p: Player, checkCooldown: bool, now: int, settings: Settings,
                services: Services): (RecipientResult, RunState)
  {
    var intervalMs := settings.intervalSeconds * 1000;
    var serverCard := Some(settings.serverCardId);
    if checkCooldown && !IsEligible(s.last, p.uuid, now, intervalMs) then (CooldownActive, s)
    else
      (Decision(rates, s.view, p, now, serverCard, services),
       RunState(if checkCooldown then Gate(s.last, p.uuid, now, intervalMs) else s.last,
                ViewAfter(rates, s.view, p, now, serverCard, services)))
  }

  /** One candidate of a run: the forced run stamps it with now and skips
      the cooldown check, the periodic run checks it. */
  function RunStep(rates: Rates, s: RunState, p: Player, now: int, settings: Settings, services: Services,
                   forced: bool): (RecipientResult, RunState)
  {
    var stamped := if forced then RunState(s.last[p.uuid := now], s.view) else s;
    Step(rates, stamped, p, !forced, now, settings, services)
  }

  /** The ledger and the caches after a run has gone over the candidates,
      one after the other. */
  function After(rates: Rates, s: RunState, ps: seq<Player>, now: int, settings: Settings,
                 services: Uuid -> Services, forced: bool): RunState
  {
    if ps == [] then s
    else
      var p := ps[|ps| - 1];
      RunStep(rates, After(rates, s, ps[..|ps| - 1], now, settings, services, forced), p, now, settings,
              services(p.uuid), forced).1
  }

  /** The result of a run for its i-th candidate: that candidate's step from
      the state the earlier candidates left. */
  function ResultAt(rates: Rates, s: RunState, ps: seq<Player>, i: nat, now: int, settings: Settings,
                    services: Uuid -> Services, forced: bool): RecipientResult
    requires i < |ps|
  {
    RunStep(rates, After(rates, s, ps[..i], now, settings, services, forced), ps[i], now, settings,
            services(ps[i].uuid), forced).0
  }

  /** What a run promises candidate by candidate: the cooldown holds back
      exactly those whose stamp, once the earlier candidates have been
      stamped, is still too recent (nobody in a forced run); every result
      fits its candidate; and a candidate met for the first time in the run
      gets the chain's decision on the ledger and caches as they were before
      the run. */
  predicate RunOutcomes(rates: Rates, s: RunState, ps: seq<Player>, results: seq<RecipientResult>, now: int,
                        settings: Settings, services: Uuid -> Services, forced: bool)
  {
    |results| == |ps| &&
    (forall i :: 0 <= i < |ps| ==>
      (results[i].CooldownActive? <==>
        !forced && !IsEligible(PeriodicStamps(s.last, UuidsOf(ps[..i]), now, settings.intervalSeconds * 1000),
                               ps[i].uuid, now, settings.intervalSeconds * 1000)) &&
      Fits(results[i], ps[i])) &&
    (forall i :: 0 <= i < |ps| && ps[i].uuid !in UuidsOf(ps[..i]) ==>
      results[i] ==
        if !forced && !IsEligible(s.last, ps[i].uuid, now, settings.intervalSeconds * 1000) then CooldownActive
        else Decision(rates, s.view, ps[i], now, Some(settings.serverCardId), services(ps[i].uuid)))
  }

  // ---------------------------------------------------------------------
  // The chain and the runs on the plugin's objects

  /** calculateSalary for the chain: the groups come through the groups
      cache, and their rates are summed. */
  method SalaryStage(table: GroupRateTable, groups: GroupsCache, p: Player, now: int, services: Services)
    returns (salary: Decimal)
    requires groups.Valid()
    modifies groups
    ensures groups.Valid()
    ensures salary == SalaryFor(table.rates, old(groups.groups), old(groups.stamps), p, now, services)
    ensures var gs := GroupsFor(old(groups.groups), old(groups.stamps), p.uuid, p.online, now, services.vaultGroups, table.rates);
      if StoresGroups(old(groups.groups), old(groups.stamps), p, now)
      then groups.groups == old(groups.groups)[p.uuid := gs] && groups.stamps == old(groups.stamps)[p.uuid := now]
      else groups.groups == old(groups.groups) && groups.stamps == old(groups.stamps)
  {
    var gs := groups.Resolve(p.uuid, p.online, now, services.vaultGroups, table.rates);
    salary := CalculateSalary(table, gs);
  }

  /** The card checks for a positive salary, in the source's order: the
      player must have a card, the server card must be configured (where the
      caller checks it) and the player's card id must be known; then the
      payment is queued to that card. */
  method CardStage(cards: CardCache, queue: PaymentQueue, p: Player, now: int, salary: Decimal,
                   serverCardId: Option<string>, services: Services) returns (res: RecipientResult)
    requires cards.Valid() && queue.Valid()
    modifies cards, queue
    ensures cards.Valid() && queue.Valid()
    ensures res.NoCard? || res.NoServerCard? || res.NoCardId? || res.Queued?
    ensures res.NoCard? <==> !HasCardFor(old(cards.cards), p.uuid, services)
    ensures res.NoServerCard? <==> HasCardFor(old(cards.cards), p.uuid, services) && ServerCardMissing(serverCardId)
    ensures var card := CardFor(old(cards.cards), old(cards.stamps), p.uuid, now, services);
      res.Queued? <==>
        HasCardFor(old(cards.cards), p.uuid, services) && !ServerCardMissing(serverCardId) && card.Some? && card.value != ""
    ensures res.Queued? ==>
      res.task == MakeTask(p, salary, CardFor(old(cards.cards), old(cards.stamps), p.uuid, now, services).value)
    ensures var stored := StoredCard(old(cards.cards), old(cards.stamps), p.uuid, now, serverCardId, services);
      if stored.Some?
      then cards.cards == old(cards.cards)[p.uuid := stored.value] && cards.stamps == old(cards.stamps)[p.uuid := now]
      else cards.cards == old(cards.cards) && cards.stamps == old(cards.stamps)
    ensures res.Queued? ==> queue.pending == old(queue.pending) + [res.task] && queue.processing
    ensures !res.Queued? ==> queue.pending == old(queue.pending) && queue.processing == old(queue.processing)
    ensures queue.log == old(queue.log)
    ensures queue.enqueued == old(queue.enqueued) + (if res.Queued? then [res.task] else [])
  {
    ghost var before, stampsBefore := cards.cards, cards.stamps;
    var hasCard := cards.HasCard(p.uuid, now, services.hasCard, services.checkCard);
    if !hasCard {
      return NoCard;
    }
    if serverCardId.Some? && serverCardId.value == "" {
      return NoServerCard;
    }
    assert CachedCard(cards.cards, cards.stamps, p.uuid, now) ==
      if p.uuid !in before && services.hasCard && IsCardId(services.checkCard) then services.checkCard
      else CachedCard(before, stampsBefore, p.uuid, now);
    res := LookupStage(cards, queue, p, now, salary, services.lookupCard);
  }

  /** The id lookup and the queueing that end the chain: the player's
      fresh cached id, or else the card service's answer (cached when it is
      an id), and a payment to it when it is an id. */
  method LookupStage(cards: CardCache, queue: PaymentQueue, p: Player, now: int, salary: Decimal,
                     lookupCard: Option<string>) returns (res: RecipientResult)
    requires cards.Valid() && queue.Valid()
    modifies cards, queue
    ensures cards.Valid() && queue.Valid()
    ensures var card := if CachedCard(old(cards.cards), old(cards.stamps), p.uuid, now).Some?
                        then CachedCard(old(cards.cards), old(cards.stamps), p.uuid, now) else lookupCard;
      (res.Queued? || res.NoCardId?) && (res.Queued? <==> IsCardId(card)) &&
      (res.Queued? ==> res.task == MakeTask(p, salary, card.value))
    ensures if CachedCard(old(cards.cards), old(cards.stamps), p.uuid, now).None? && IsCardId(lookupCard)
      then cards.cards == old(cards.cards)[p.uuid := lookupCard.value] && cards.stamps == old(cards.stamps)[p.uuid := now]
      else cards.cards == old(cards.cards) && cards.stamps == old(cards.stamps)
    ensures res.Queued? ==> queue.pending == old(queue.pending) + [res.task] && queue.processing
    ensures !res.Queued? ==> queue.pending == old(queue.pending) && queue.processing == old(queue.processing)
    ensures queue.log == old(queue.log)
    ensures queue.enqueued == old(queue.enqueued) + (if res.Queued? then [res.task] else [])
  {
    var cardId := cards.GetCardId(p.uuid, now, lookupCard);
    if cardId.None? || cardId.value == "" {
      return NoCardId;
    }
    var task := MakeTask(p, salary, cardId.value);
    queue.Enqueue(task);
    return Queued(task);
  }

  /** The part of the chain after the cooldown gate: a positive salary goes
      on to the card checks. */
  method PayChain(table: GroupRateTable, cards: CardCache, groups: GroupsCache, queue: PaymentQueue,
                  p: Player, now: int, serverCardId: Option<string>, services: Services) returns (res: RecipientResult)
    requires cards.Valid() && groups.Valid() && queue.Valid()
    modifies cards, groups, queue
    ensures cards.Valid() && groups.Valid() && queue.Valid()
    ensures res == Decision(table.rates, old(ViewOf(cards, groups)), p, now, serverCardId, services)
    ensures ViewOf(cards, groups) == ViewAfter(table.rates, old(ViewOf(cards, groups)), p, now, serverCardId, services)
    ensures res.Queued? ==> queue.pending == old(queue.pending) + [res.task] && queue.processing
    ensures !res.Queued? ==> queue.pending == old(queue.pending) && queue.processing == old(queue.processing)
    ensures queue.log == old(queue.log)
    ensures queue.enqueued == old(queue.enqueued) + (if res.Queued? then [res.task] else [])
  {
    var salary := SalaryStage(table, groups, p, now, services);
    if Signum(salary) <= 0 {
      return NoSalary;
    }
    res := CardStage(cards, queue, p, now, salary, serverCardId, services);
  }

  /** processPlayerSalary: with the cooldown checked, an ineligible player
      is dropped and an eligible one is stamped before anything else is
      known; the rest of the chain follows, checking the server card. */
  method ProcessRecipient(table: GroupRateTable, ledger: CooldownLedger, cards: CardCache, groups: GroupsCache,
                          queue: PaymentQueue, p: Player, checkCooldown: bool, now: int, settings: Settings,
                          services: Services) returns (res: RecipientResult)
    requires cards.Valid() && groups.Valid() && queue.Valid()
    modifies ledger, cards, groups, queue
    ensures cards.Valid() && groups.Valid() && queue.Valid()
    ensures ledger.last ==
      (if checkCooldown then Gate(old(ledger.last), p.uuid, now, settings.intervalSeconds * 1000) else old(ledger.last))
    ensures ledger.lastTaskRun == old(ledger.lastTaskRun)
    ensures res.CooldownActive? <==> checkCooldown && !IsEligible(old(ledger.last), p.uuid, now, settings.intervalSeconds * 1000)
    ensures !res.CooldownActive? ==>
      res == Decision(table.rates, old(ViewOf(cards, groups)), p, now, Some(settings.serverCardId), services)
    ensures ViewOf(cards, groups) ==
      if res.CooldownActive? then old(ViewOf(cards, groups))
      else ViewAfter(table.rates, old(ViewOf(cards, groups)), p, now, Some(settings.serverCardId), services)
    ensures (res, RunState(ledger.last, ViewOf(cards, groups))) ==
      Step(table.rates, RunState(old(ledger.last), old(ViewOf(cards, groups))), p, checkCooldown, now, settings, services)
    ensures res.Queued? ==> queue.pending == old(queue.pending) + [res.task] && queue.processing
    ensures !res.Queued? ==> queue.pending == old(queue.pending) && queue.processing == old(queue.processing)
    ensures queue.log == old(queue.log)
    ensures queue.enqueued == old(queue.enqueued) + (if res.Queued? then [res.task] else [])
  {
    if checkCooldown {
      var eligible := ledger.CheckAndStamp(p.uuid, now, settings.intervalSeconds * 1000);
      if !eligible {
        return CooldownActive;
      }
    }
    res := PayChain(table, cards, groups, queue, p, now, Some(settings.serverCardId), services);
  }

  /** One candidate of a run: the forced run stamps it with now first and
      skips the cooldown check, the periodic run checks it. */
  method RunOne(table: GroupRateTable, ledger: CooldownLedger, cards: CardCache, groups: GroupsCache,
                queue: PaymentQueue, p: Player, now: int, settings: Settings, services: Services, forced: bool)
    returns (res: RecipientResult)
    requires cards.Valid() && groups.Valid() && queue.Valid()
    modifies ledger, cards, groups, queue
    ensures cards.Valid() && groups.Valid() && queue.Valid()
    ensures (res, RunState(ledger.last, ViewOf(cards, groups))) ==
      RunStep(table.rates, RunState(old(ledger.last), old(ViewOf(cards, groups))), p, now, settings, services, forced)
    ensures ledger.lastTaskRun == old(ledger.lastTaskRun)
    ensures queue.pending == old(queue.pending) + (if res.Queued? then [res.task] else [])
    ensures queue.enqueued == old(queue.enqueued) + (if res.Queued? then [res.task] else [])
    ensures queue.log == old(queue.log)
    ensures queue.processing == (old(queue.processing) || res.Queued?)
  {
    if forced {
      ledger.Stamp(p.uuid, now);
    }
    res := ProcessRecipient(table, ledger, cards, groups, queue, p, !forced, now, settings, services);
  }

  /** One turn of the loop both runs share: the i-th candidate goes through
      the chain from the state the earlier ones left, and its result joins
      the run's results. */
  method RunNextCandidate(table: GroupRateTable, ledger: CooldownLedger, cards: CardCache, groups: GroupsCache,
                          queue: PaymentQueue, candidates: seq<Player>, i: nat, results: seq<RecipientResult>,
                          now: int, settings: Settings, services: Uuid -> Services, forced: bool,
                          ghost start: RunState, ghost pending0: seq<PaymentTask>, ghost enqueued0: seq<PaymentTask>,
                          ghost processing0: bool)
    returns (results': seq<RecipientResult>)
    requires i < |candidates| && |results| == i
    requires cards.Valid() && groups.Valid() && queue.Valid()
    requires forall j :: 0 <= j < i ==>
      results[j] == ResultAt(table.rates, start, candidates, j, now, settings, services, forced)
    requires RunState(ledger.last, ViewOf(cards, groups)) ==
      After(table.rates, start, candidates[..i], now, settings, services, forced)
    requires queue.pending == pending0 + QueuedTasks(results)
    requires queue.enqueued == enqueued0 + QueuedTasks(results)
    requires queue.processing == (processing0 || QueuedTasks(results) != [])
    modifies ledger, cards, groups, queue
    ensures |results'| == i + 1
    ensures cards.Valid() && groups.Valid() && queue.Valid()
    ensures forall j :: 0 <= j < i + 1 ==>
      results'[j] == ResultAt(table.rates, start, candidates, j, now, settings, services, forced)
    ensures RunState(ledger.last, ViewOf(cards, groups)) ==
      After(table.rates, start, candidates[..i + 1], now, settings, services, forced)
    ensures queue.pending == pending0 + QueuedTasks(results')
    ensures queue.enqueued == enqueued0 + QueuedTasks(results')
    ensures queue.log == old(queue.log)
    ensures queue.processing == (processing0 || QueuedTasks(results') != [])
  {
    var p := candidates[i];
    RunNext(table.rates, start, candidates, i, now, settings, services, forced);
    var r := RunOne(table, ledger, cards, groups, queue, p, now, settings, services(p.uuid), forced);
    QueuedTasksNext(results, r);
    ResultsNext(table.rates, start, candidates, i, results, r, now, settings, services, forced);
    results' := results + [r];
  }

  /** The loop both runs share: each candidate in turn. */
  method RunAll(table: GroupRateTable, ledger: CooldownLedger, cards: CardCache, groups: GroupsCache,
                queue: PaymentQueue, candidates: seq<Player>, now: int, settings: Settings,
                services: Uuid -> Services, forced: bool) returns (results: seq<RecipientResult>)
    requires cards.Valid() && groups.Valid() && queue.Valid()
    modifies ledger, cards, groups, queue
    ensures cards.Valid() && groups.Valid() && queue.Valid()
    ensures |results| == |candidates|
    ensures forall i :: 0 <= i < |results| ==>
      results[i] == ResultAt(table.rates, RunState(old(ledger.last), old(ViewOf(cards, groups))), candidates, i,
                             now, settings, services, forced)
    ensures RunState(ledger.last, ViewOf(cards, groups)) ==
      After(table.rates, RunState(old(ledger.last), old(ViewOf(cards, groups))), candidates, now, settings, services, forced)
    ensures queue.pending == old(queue.pending) + QueuedTasks(results)
    ensures queue.enqueued == old(queue.enqueued) + QueuedTasks(results)
    ensures queue.log == old(queue.log)
    ensures queue.processing == (old(queue.processing) || QueuedTasks(results) != [])
  {
    ghost var start := RunState(ledger.last, ViewOf(cards, groups));
    results := [];
    var i := 0;
    while i < |candidates|
      invariant 0 <= i <= |candidates| && |results| == i
      invariant cards.Valid() && groups.Valid() && queue.Valid()
      invariant forall j :: 0 <= j < i ==>
        results[j] == ResultAt(table.rates, start, candidates, j, now, settings, services, forced)
      invariant RunState(ledger.last, ViewOf(cards, groups)) ==
        After(table.rates, start, candidates[..i], now, settings, services, forced)
      invariant queue.pending == old(queue.pending) + QueuedTasks(results)
      invariant queue.enqueued == old(queue.enqueued) + QueuedTasks(results)
      invariant queue.log == old(queue.log)
      invariant queue.processing == (old(queue.processing) || QueuedTasks(results) != [])
    {
      results := RunNextCandidate(table, ledger, cards, groups, queue, candidates, i, results, now, settings,
                                  services, forced, start, old(queue.pending), old(queue.enqueued),
                                  old(queue.processing));
      i := i + 1;
    }
    assert candidates[..i] == candidates;
  }

  /** The periodic run: every candidate goes through the chain with the
      cooldown checked; the run's time is recorded afterwards. */
  method PeriodicRun(table: GroupRateTable, ledger: CooldownLedger, cards: CardCache, groups: GroupsCache,
                     queue: PaymentQueue, players: seq<Player>, now: int, settings: Settings,
                     services: Uuid -> Services) returns (candidates: seq<Player>, results: seq<RecipientResult>)
    requires cards.Valid() && groups.Valid() && queue.Valid()
    modifies ledger, cards, groups, queue
    ensures cards.Valid() && groups.Valid() && queue.Valid()
    ensures candidates == Candidates(players, settings.payOffline) && |results| == |candidates|
    ensures forall i :: 0 <= i < |results| ==>
      results[i] == ResultAt(table.rates, RunState(old(ledger.last), old(ViewOf(cards, groups))), candidates, i,
                             now, settings, services, false)
    ensures RunState(ledger.last, ViewOf(cards, groups)) ==
      After(table.rates, RunState(old(ledger.last), old(ViewOf(cards, groups))), candidates, now, settings, services, false)
    ensures RunOutcomes(table.rates, RunState(old(ledger.last), old(ViewOf(cards, groups))), candidates, results,
                        now, settings, services, false)
    ensures ledger.last == PeriodicStamps(old(ledger.last), UuidsOf(candidates), now, settings.intervalSeconds * 1000)
    ensures ledger.lastTaskRun == now
    ensures queue.pending == old(queue.pending) + QueuedTasks(results)
    ensures queue.enqueued == old(queue.enqueued) + QueuedTasks(results)
    ensures queue.log == old(queue.log)
    ensures queue.processing == (old(queue.processing) || QueuedTasks(results) != [])
  {
    ghost var before := RunState(ledger.last, ViewOf(cards, groups));
    candidates := Candidates(players, settings.payOffline);
    RunLedger(table.rates, before, candidates, now, settings, services, false);
    results := RunAll(table, ledger, cards, groups, queue, candidates, now, settings, services, false);
    RunOutcomesHold(table.rates, before, candidates, results, now, settings, services, false);
    ledger.RecordTaskRun(now);
  }

  /** The forced run: every candidate is stamped with the same time and
      then goes through the chain without the cooldown check. */
  method ForceRun(table: GroupRateTable, ledger: CooldownLedger, cards: CardCache, groups: GroupsCache,
                  queue: PaymentQueue, players: seq<Player>, now: int, settings: Settings,
                  services: Uuid -> Services) returns (candidates: seq<Player>, results: seq<RecipientResult>)
    requires cards.Valid() && groups.Valid() && queue.Valid()
    modifies ledger, cards, groups, queue
    ensures cards.Valid() && groups.Valid() && queue.Valid()
    ensures candidates == Candidates(players, settings.payOffline) && |results| == |candidates|
    ensures forall i :: 0 <= i < |results| ==>
      results[i] == ResultAt(table.rates, RunState(old(ledger.last), old(ViewOf(cards, groups))), candidates, i,
                             now, settings, services, true)
    ensures RunState(ledger.last, ViewOf(cards, groups)) ==
      After(table.rates, RunState(old(ledger.last), old(ViewOf(cards, groups))), candidates, now, settings, services, true)
    ensures RunOutcomes(table.rates, RunState(old(ledger.last), old(ViewOf(cards, groups))), candidates, results,
                        now, settings, services, true)
    ensures ledger.last == ForcedStamps(old(ledger.last), UuidsOf(candidates), now)
    ensures ledger.lastTaskRun == now
    ensures queue.pending == old(queue.pending) + QueuedTasks(results)
    ensures queue.enqueued == old(queue.enqueued) + QueuedTasks(results)
    ensures queue.log == old(queue.log)
    ensures queue.processing == (old(queue.processing) || QueuedTasks(results) != [])
  {
    ghost var before := RunState(ledger.last, ViewOf(cards, groups));
    candidates := Candidates(players, settings.payOffline);
    RunLedger(table.rates, before, candidates, now, settings, services, true);
    results := RunAll(table, ledger, cards, groups, queue, candidates, now, settings, services, true);
    RunOutcomesHold(table.rates, before, candidates, results, now, settings, services, true);
    ledger.RecordTaskRun(now);
  }

  /** /salary pay: no cooldown and no server-card check; the player is
      stamped only when the payment is queued (just before the task enters
      the queue, which nothing else reads in between). */
  method ManualPay(table: GroupRateTable, ledger: CooldownLedger, cards: CardCache, groups: GroupsCache,
                   queue: PaymentQueue, p: Player, now: int, services: Services) returns (res: RecipientResult)
    requires cards.Valid() && groups.Valid() && queue.Valid()
    modifies ledger, cards, groups, queue
    ensures cards.Valid() && groups.Valid() && queue.Valid()
    ensures res == Decision(table.rates, old(ViewOf(cards, groups)), p, now, None, services)
    ensures ViewOf(cards, groups) == ViewAfter(table.rates, old(ViewOf(cards, groups)), p, now, None, services)
    ensures ledger.last == (if res.Queued? then old(ledger.last)[p.uuid := now] else old(ledger.last))
    ensures ledger.lastTaskRun == old(ledger.lastTaskRun)
    ensures res.Queued? ==> queue.pending == old(queue.pending) + [res.task] && queue.processing
    ensures !res.Queued? ==> queue.pending == old(queue.pending) && queue.processing == old(queue.processing)
    ensures queue.log == old(queue.log)
    ensures queue.enqueued == old(queue.enqueued) + (if res.Queued? then [res.task] else [])
  {
    res := PayChain(table, cards, groups, queue, p, now, None, services);
    if res.Queued? {
      ledger.Stamp(p.uuid, now);
    }
  }

  /** /salary reload: the group table is rebuilt from the configuration and
      the saved ledger is merged into the one in memory. */
  method Reload(table: GroupRateTable, ledger: CooldownLedger, configured: seq<(string, Decimal)>, file: LedgerFile)
    modifies table, ledger
    ensures table.rates == LoadedRates(configured) && table.Valid()
    ensures ledger.last == (if file.Parsed? then MergeEntries(old(ledger.last), file.entries) else old(ledger.last))
    ensures old(ledger.last).Keys <= ledger.last.Keys
    ensures ledger.lastTaskRun == (if file.Parsed? && file.taskRun.Value? then file.taskRun.ms else 0)
  {
    table.Load(configured);
    ledger.Load(file);
    if file.Parsed? {
      MergeEntriesEffect(old(ledger.last), file.entries);
    }
  }

  // ---------------------------------------------------------------------
  // Properties of the chain and of the runs

  lemma LookupAgree<V>(m1: map<Uuid, V>, m2: map<Uuid, V>, w: Uuid)
    requires Lookup(m1, w) == Lookup(m2, w)
    ensures (w in m1 <==> w in m2) && (w in m1 ==> m1[w] == m2[w])
  {
  }

  /** Two cache states that agree on w answer every lookup for w alike. */
  lemma LookupsAgree(rates: Rates, v1: CacheView, v2: CacheView, p: Player, now: int, services: Services)
    requires EntryOf(v1, p.uuid) == EntryOf(v2, p.uuid)
    ensures p.uuid in v1.cards <==> p.uuid in v2.cards
    ensures CachedCard(v1.cards, v1.cardStamps, p.uuid, now) == CachedCard(v2.cards, v2.cardStamps, p.uuid, now)
    ensures StoresGroups(v1.groups, v1.groupStamps, p, now) == StoresGroups(v2.groups, v2.groupStamps, p, now)
    ensures SalaryFor(rates, v1.groups, v1.groupStamps, p, now, services) ==
      SalaryFor(rates, v2.groups, v2.groupStamps, p, now, services)
    ensures GroupsFor(v1.groups, v1.groupStamps, p.uuid, p.online, now, services.vaultGroups, rates) ==
      GroupsFor(v2.groups, v2.groupStamps, p.uuid, p.online, now, services.vaultGroups, rates)
  {
    var w := p.uuid;
    LookupAgree(v1.cards, v2.cards, w);
    LookupAgree(v1.cardStamps, v2.cardStamps, w);
    LookupAgree(v1.groups, v2.groups, w);
    LookupAgree(v1.groupStamps, v2.groupStamps, w);
  }

  /** For a player without a cached id whom the card service knows, the
      payment goes to the id the has-card check obtained; when that answer
      was no id, the lookup asks again and its answer is paid and cached. */
  lemma UncachedCardSource(rates: Rates, v: CacheView, p: Player, now: int, serverCardId: Option<string>,
                           services: Services)
    requires p.uuid !in v.cards && services.hasCard && !ServerCardMissing(serverCardId)
    requires Signum(SalaryFor(rates, v.groups, v.groupStamps, p, now, services)) > 0
    ensures var paid := if IsCardId(services.checkCard) then services.checkCard else services.lookupCard;
      var salary := SalaryFor(rates, v.groups, v.groupStamps, p, now, services);
      Decision(rates, v, p, now, serverCardId, services) ==
        (if IsCardId(paid) then Queued(MakeTask(p, salary, paid.value)) else NoCardId)
    ensures var paid := if IsCardId(services.checkCard) then services.checkCard else services.lookupCard;
      ViewAfter(rates, v, p, now, serverCardId, services).cards ==
        (if IsCardId(paid) then v.cards[p.uuid := paid.value] else v.cards)
  {
  }

  /** The chain reads only p's own entries: two cache states that agree on
      p give the same outcome. */
  lemma DecisionLocal(rates: Rates, v1: CacheView, v2: CacheView, p: Player, now: int, serverCardId: Option<string>,
                      services: Services)
    requires EntryOf(v1, p.uuid) == EntryOf(v2, p.uuid)
    ensures Decision(rates, v1, p, now, serverCardId, services) == Decision(rates, v2, p, now, serverCardId, services)
  {
    LookupsAgree(rates, v1, v2, p, now, services);
    assert CardFor(v1.cards, v1.cardStamps, p.uuid, now, services) == CardFor(v2.cards, v2.cardStamps, p.uuid, now, services);
  }

  /** Two cache states that agree on p still agree on p after the chain. */
  lemma ViewAfterAgree(rates: Rates, v1: CacheView, v2: CacheView, p: Player, now: int, serverCardId: Option<string>,
                       services: Services)
    requires EntryOf(v1, p.uuid) == EntryOf(v2, p.uuid)
    ensures EntryOf(ViewAfter(rates, v1, p, now, serverCardId, services), p.uuid) ==
      EntryOf(ViewAfter(rates, v2, p, now, serverCardId, services), p.uuid)
  {
    LookupsAgree(rates, v1, v2, p, now, services);
    assert StoredCard(v1.cards, v1.cardStamps, p.uuid, now, serverCardId, services) ==
      StoredCard(v2.cards, v2.cardStamps, p.uuid, now, serverCardId, services);
  }

  /** The chain writes only p's own entries. */
  lemma ViewAfterLocal(rates: Rates, v: CacheView, p: Player, now: int, serverCardId: Option<string>,
                       services: Services, u: Uuid)
    requires u != p.uuid
    ensures EntryOf(ViewAfter(rates, v, p, now, serverCardId, services), u) == EntryOf(v, u)
  {
  }

  /** After, one candidate further. */
  lemma RunNext(rates: Rates, s: RunState, ps: seq<Player>, i: nat, now: int, settings: Settings,
                services: Uuid -> Services, forced: bool)
    requires i < |ps|
    ensures After(rates, s, ps[..i + 1], now, settings, services, forced) ==
      RunStep(rates, After(rates, s, ps[..i], now, settings, services, forced), ps[i], now, settings,
              services(ps[i].uuid), forced).1
  {
    assert ps[..i + 1][..i] == ps[..i];
  }

  /** The results of the first i candidates, followed by the i-th
      candidate's step from the state they left, are the first i + 1
      results. */
  lemma ResultsNext(rates: Rates, s: RunState, ps: seq<Player>, i: nat, results: seq<RecipientResult>,
                    r: RecipientResult, now: int, settings: Settings, services: Uuid -> Services, forced: bool)
    requires i < |ps| && |results| == i
    requires forall j :: 0 <= j < i ==> results[j] == ResultAt(rates, s, ps, j, now, settings, services, forced)
    requires r == RunStep(rates, After(rates, s, ps[..i], now, settings, services, forced), ps[i], now, settings,
                          services(ps[i].uuid), forced).0
    ensures forall j :: 0 <= j < i + 1 ==> (results + [r])[j] == ResultAt(rates, s, ps, j, now, settings, services, forced)
  {
  }

  /** The ledger a run leaves is the periodic stamps of its candidates, or
      the forced stamps for a forced run. */
  lemma {:induction false} RunLedger(rates: Rates, s: RunState, ps: seq<Player>, now: int, settings: Settings,
                                     services: Uuid -> Services, forced: bool)
    ensures After(rates, s, ps, now, settings, services, forced).last ==
      if forced then ForcedStamps(s.last, UuidsOf(ps), now)
      else PeriodicStamps(s.last, UuidsOf(ps), now, settings.intervalSeconds * 1000)
  {
    if ps != [] {
      var init := ps[..|ps| - 1];
      RunLedger(rates, s, init, now, settings, services, forced);
      var us := UuidsOf(ps);
      assert us[..|us| - 1] == UuidsOf(init);
    }
  }

  /** A run changes no cache entry of a player it does not consider. */
  lemma {:induction false} RunLocal(rates: Rates, s: RunState, ps: seq<Player>, now: int, settings: Settings,
                                    services: Uuid -> Services, forced: bool, u: Uuid)
    requires u !in UuidsOf(ps)
    ensures EntryOf(After(rates, s, ps, now, settings, services, forced).view, u) == EntryOf(s.view, u)
  {
    if ps != [] {
      var init, p := ps[..|ps| - 1], ps[|ps| - 1];
      assert UuidsOf(ps) == UuidsOf(init) + [p.uuid];
      RunLocal(rates, s, init, now, settings, services, forced, u);
      var before := After(rates, s, init, now, settings, services, forced);
      ViewAfterLocal(rates, before.view, p, now, Some(settings.serverCardId), services(p.uuid), u);
    }
  }

  /** The first time a run reaches a player, the ledger and the caches are
      still as they were before the run for that player, so the result is
      decided from the state before the run: the cooldown, unless forced,
      then the chain. */
  lemma RunFirstVisit(rates: Rates, s: RunState, ps: seq<Player>, i: nat, now: int, settings: Settings,
                      services: Uuid -> Services, forced: bool)
    requires i < |ps| && ps[i].uuid !in UuidsOf(ps[..i])
    ensures ResultAt(rates, s, ps, i, now, settings, services, forced) ==
      if !forced && !IsEligible(s.last, ps[i].uuid, now, settings.intervalSeconds * 1000) then CooldownActive
      else Decision(rates, s.view, ps[i], now, Some(settings.serverCardId), services(ps[i].uuid))
  {
    var p, intervalMs := ps[i], settings.intervalSeconds * 1000;
    var before := After(rates, s, ps[..i], now, settings, services, forced);
    RunLocal(rates, s, ps[..i], now, settings, services, forced, p.uuid);
    DecisionLocal(rates, before.view, s.view, p, now, Some(settings.serverCardId), services(p.uuid));
    if !forced {
      RunLedger(rates, s, ps[..i], now, settings, services, forced);
      PeriodicStampsEffect(s.last, UuidsOf(ps[..i]), now, intervalMs);
      assert IsEligible(before.last, p.uuid, now, intervalMs) == IsEligible(s.last, p.uuid, now, intervalMs);
    }
  }

  /** What the runs promise for every candidate, first visit or not: the
      periodic cooldown is checked against the stamps the earlier candidates
      left, the forced run never reports it, and a queued payment fits its
      candidate. */
  lemma RunGate(rates: Rates, s: RunState, ps: seq<Player>, i: nat, now: int, settings: Settings,
                services: Uuid -> Services, forced: bool)
    requires i < |ps|
    ensures var r := ResultAt(rates, s, ps, i, now, settings, services, forced);
      (r.CooldownActive? <==>
        !forced && !IsEligible(PeriodicStamps(s.last, UuidsOf(ps[..i]), now, settings.intervalSeconds * 1000),
                               ps[i].uuid, now, settings.intervalSeconds * 1000)) &&
      Fits(r, ps[i])
  {
    RunLedger(rates, s, ps[..i], now, settings, services, forced);
    var before := After(rates, s, ps[..i], now, settings, services, forced);
    RunStepResult(rates, before, ps[i], now, settings, services(ps[i].uuid), forced);
  }

  /** One candidate's result: the cooldown is reported only by the periodic
      run, for a player the ledger does not let through, and a queued
      payment fits the player. */
  lemma RunStepResult(rates: Rates, s: RunState, p: Player, now: int, settings: Settings, services: Services,
                      forced: bool)
    ensures var r := RunStep(rates, s, p, now, settings, services, forced).0;
      (r.CooldownActive? <==> !forced && !IsEligible(s.last, p.uuid, now, settings.intervalSeconds * 1000)) &&
      Fits(r, p)
  {
  }

  /** The results a run computes keep its candidate-by-candidate promises. */
  lemma RunOutcomesHold(rates: Rates, s: RunState, ps: seq<Player>, results: seq<RecipientResult>, now: int,
                        settings: Settings, services: Uuid -> Services, forced: bool)
    requires |results| == |ps|
    requires forall i :: 0 <= i < |ps| ==> results[i] == ResultAt(rates, s, ps, i, now, settings, services, forced)
    ensures RunOutcomes(rates, s, ps, results, now, settings, services, forced)
  {
    forall i | 0 <= i < |ps|
      ensures (results[i].CooldownActive? <==>
          !forced && !IsEligible(PeriodicStamps(s.last, UuidsOf(ps[..i]), now, settings.intervalSeconds * 1000),
                                 ps[i].uuid, now, settings.intervalSeconds * 1000)) &&
        Fits(results[i], ps[i])
    {
      RunGate(rates, s, ps, i, now, settings, services, forced);
    }
    forall i | 0 <= i < |ps| && ps[i].uuid !in UuidsOf(ps[..i])
      ensures results[i] ==
        if !forced && !IsEligible(s.last, ps[i].uuid, now, settings.intervalSeconds * 1000) then CooldownActive
        else Decision(rates, s.view, ps[i], now, Some(settings.serverCardId), services(ps[i].uuid))
    {
      RunFirstVisit(rates, s, ps, i, now, settings, services, forced);
    }
  }

  lemma QueuedTasksNext(results: seq<RecipientResult>, r: RecipientResult)
    ensures QueuedTasks(results + [r]) == QueuedTasks(results) + (if r.Queued? then [r.task] else [])
  {
    assert (results + [r])[..|results|] == results;
  }

  /** The tasks a run queues are those of its recipients, in the order the
      results are listed. */
  lemma {:induction false} QueuedTasksAppend(a: seq<RecipientResult>, b: seq<RecipientResult>)
    ensures QueuedTasks(a + b) == QueuedTasks(a) + QueuedTasks(b)
  {
    if b != [] {
      QueuedTasksAppend(a, b[..|b| - 1]);
      assert (a + b)[..|a + b| - 1] == a + b[..|b| - 1];
    } else {
      assert a + b == a;
    }
  }

  /** A second periodic run at the same time queues nobody whom the first
      one stamped, when the interval is positive. */
  lemma SecondRunWaits(last: map<Uuid, int>, us: seq<Uuid>, now: int, intervalMs: int, u: Uuid)
    requires intervalMs > 0 && u in us && IsEligible(last, u, now, intervalMs)
    ensures !IsEligible(PeriodicStamps(last, us, now, intervalMs), u, now, intervalMs)
  {
    PeriodicStampsEffect(last, us, now, intervalMs);
  }
}
