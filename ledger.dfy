/** The cooldown ledger (lastSalaryTime): for each player, the time in
    milliseconds at which a salary was last granted.  The periodic path
    stamps a recipient before its salary or card is known, the forced path
    stamps every candidate with one shared time, and reloading the saved
    ledger only adds or overwrites entries. */
module Ledger {

  import opened Wrappers
  import opened Players

  /** The periodic gate: a player never paid, or paid at least intervalMs
      ago, may be paid again (the boundary counts as elapsed). */
  predicate IsEligible(last: map<Uuid, int>, u: Uuid, now: int, intervalMs: int) {
    u !in last || now - last[u] >= intervalMs
  }

  /** The ledger after the periodic gate has looked at u. */
  function Gate(last: map<Uuid, int>, u: Uuid, now: int, intervalMs: int): map<Uuid, int> {
    if IsEligible(last, u, now, intervalMs) then last[u := now] else last
  }

  /** The ledger after the periodic gate has looked at each of us in turn. */
  function PeriodicStamps(last: map<Uuid, int>, us: seq<Uuid>, now: int, intervalMs: int): map<Uuid, int>
  {
    if us == [] then last
    else Gate(PeriodicStamps(last, us[..|us| - 1], now, intervalMs), us[|us| - 1], now, intervalMs)
  }

  /** The ledger after the forced path has stamped each of us with now. */
  function ForcedStamps(last: map<Uuid, int>, us: seq<Uuid>, now: int): map<Uuid, int>
  {
    if us == [] then last else ForcedStamps(last, us[..|us| - 1], now)[us[|us| - 1] := now]
  }

  /** The ledger after the valid entries of a saved file (None for an entry
      whose key or value did not parse) have been put into it in order. */
  function MergeEntries(last: map<Uuid, int>, entries: seq<Option<(Uuid, int)>>): map<Uuid, int>
  {
    if entries == [] then last
    else
      var m := MergeEntries(last, entries[..|entries| - 1]);
      match entries[|entries| - 1]
      case None => m
      case Some(e) => m[e.0 := e.1]
  }

  /** The value of the last valid entry for u, if any. */
  function LastEntry(entries: seq<Option<(Uuid, int)>>, u: Uuid): Option<int>
  {
    if entries == [] then None
    else
      var e := entries[|entries| - 1];
      if e.Some? && e.value.0 == u then Some(e.value.1) else LastEntry(entries[..|entries| - 1], u)
  }

  /** The periodic gate, for one recipient: an ineligible one leaves the
      ledger unchanged, an eligible one is stamped with now, nobody else is
      touched; exactly intervalMs after the last payment is eligible. */
  lemma GateEffect(last: map<Uuid, int>, u: Uuid, now: int, intervalMs: int)
    ensures !IsEligible(last, u, now, intervalMs) ==> Gate(last, u, now, intervalMs) == last
    ensures IsEligible(last, u, now, intervalMs) ==>
      u in Gate(last, u, now, intervalMs) && Gate(last, u, now, intervalMs)[u] == now
    ensures forall v :: v != u ==>
      (v in Gate(last, u, now, intervalMs) <==> v in last) &&
      (v in last ==> Gate(last, u, now, intervalMs)[v] == last[v])
    ensures u in last && now - last[u] == intervalMs ==> IsEligible(last, u, now, intervalMs)
    ensures u in last && now - last[u] == intervalMs - 1 ==> !IsEligible(last, u, now, intervalMs)
  {
  }

  /** A periodic run over several recipients: each one ends with now if it
      was eligible before the run and with its old stamp otherwise, even if
      it is listed twice; players not listed are untouched. */
  lemma {:induction false} PeriodicStampsEffect(last: map<Uuid, int>, us: seq<Uuid>, now: int, intervalMs: int)
    ensures var r := PeriodicStamps(last, us, now, intervalMs);
      forall u :: u in us ==>
        u in r && r[u] == (if IsEligible(last, u, now, intervalMs) then now else last[u])
    ensures var r := PeriodicStamps(last, us, now, intervalMs);
      forall u :: u !in us ==> (u in r <==> u in last) && (u in last ==> r[u] == last[u])
  {
    if us != [] {
      var init, x := us[..|us| - 1], us[|us| - 1];
      PeriodicStampsEffect(last, init, now, intervalMs);
      var p := PeriodicStamps(last, init, now, intervalMs);
      assert us == init + [x];
      forall u | u in us
        ensures u in PeriodicStamps(last, us, now, intervalMs)
        ensures PeriodicStamps(last, us, now, intervalMs)[u] ==
          (if IsEligible(last, u, now, intervalMs) then now else last[u])
      {
        if u == x && u in init && !IsEligible(last, u, now, intervalMs) {
          assert !IsEligible(p, u, now, intervalMs);
        }
      }
    }
  }

  /** A forced run gives every candidate the same time and leaves everyone
      else alone. */
  lemma {:induction false} ForcedStampsEffect(last: map<Uuid, int>, us: seq<Uuid>, now: int)
    ensures var r := ForcedStamps(last, us, now);
      forall u :: u in us ==> u in r && r[u] == now
    ensures var r := ForcedStamps(last, us, now);
      forall u :: u !in us ==> (u in r <==> u in last) && (u in last ==> r[u] == last[u])
  {
    if us != [] {
      ForcedStampsEffect(last, us[..|us| - 1], now);
      assert us == us[..|us| - 1] + [us[|us| - 1]];
    }
  }

  /** Reloading never drops an entry: a player keeps its old stamp unless the
      file holds a valid entry for it, in which case the last such entry
      wins. */
  lemma {:induction false} MergeEntriesEffect(last: map<Uuid, int>, entries: seq<Option<(Uuid, int)>>)
    ensures last.Keys <= MergeEntries(last, entries).Keys
    ensures forall u :: u in MergeEntries(last, entries) <==> u in last || LastEntry(entries, u).Some?
    ensures forall u :: u in MergeEntries(last, entries) ==>
      MergeEntries(last, entries)[u] == (if LastEntry(entries, u).Some? then LastEntry(entries, u).value else last[u])
  {
    if entries != [] {
      MergeEntriesEffect(last, entries[..|entries| - 1]);
    }
  }

  /** What the saved ledger file yields: nothing (no file), a file that does
      not parse as a JSON object, or its entries and its lastTaskRun field. */
  datatype TaskRunField = Absent | Value(ms: int) | Malformed
  datatype LedgerFile = Missing | Unreadable | Parsed(entries: seq<Option<(Uuid, int)>>, taskRun: TaskRunField)

  class CooldownLedger {
    var last: map<Uuid, int>
    var lastTaskRun: int

    constructor()
      ensures last == map[] && lastTaskRun == 0
    {
      last := map[];
      lastTaskRun := 0;
    }

    /** The periodic cooldown check: answers whether u may be paid and, if
        so, stamps it with now at once. */
    method CheckAndStamp(u: Uuid, now: int, intervalMs: int) returns (eligible: bool)
      modifies this
      ensures eligible == IsEligible(old(last), u, now, intervalMs)
      ensures last == Gate(old(last), u, now, intervalMs)
      ensures lastTaskRun == old(lastTaskRun)
    {
      eligible := u !in last || now - last[u] >= intervalMs;
      if eligible {
        last := last[u := now];
      }
    }

    method Stamp(u: Uuid, now: int)
      modifies this
      ensures last == old(last)[u := now]
      ensures lastTaskRun == old(lastTaskRun)
    {
      last := last[u := now];
    }

    /** Reloading the saved ledger: valid entries are put into the ledger
        (which is never cleared first), and the task-run time is the file's
        if it reads, 0 otherwise.  A malformed task-run field is read after
        the entries, so the entries stay. */
    method Load(file: LedgerFile)
      modifies this
      ensures file.Parsed? ==> last == MergeEntries(old(last), file.entries)
      ensures !file.Parsed? ==> last == old(last)
      ensures lastTaskRun == (if file.Parsed? && file.taskRun.Value? then file.taskRun.ms else 0)
    {
      lastTaskRun := 0;
      if file.Parsed? {
        var entries := file.entries;
        var i := 0;
        while i < |entries|
          invariant 0 <= i <= |entries|
          invariant last == MergeEntries(old(last), entries[..i])
          invariant lastTaskRun == 0
        {
          assert entries[..i + 1][..i] == entries[..i];
          if entries[i].Some? {
            last := last[entries[i].value.0 := entries[i].value.1];
          }
          i := i + 1;
        }
        assert entries[..i] == entries;
        if file.taskRun.Value? {
          lastTaskRun := file.taskRun.ms;
        }
      }
    }

    method RecordTaskRun(now: int)
      modifies this
      ensures last == old(last) && lastTaskRun == now
    {
      lastTaskRun := now;
    }
  }
}
