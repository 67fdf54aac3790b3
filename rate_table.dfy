/** The group rate table (groupSalaries): salary per permission group, keyed
    by the lower-cased group name on every write and lookup, together with
    the decision the /salary group command makes between listing, showing,
    removing, rejecting and setting a rate. */
module RateTable {

  import opened Wrappers
  import opened Text
  import opened Decimals

  type Rates = map<string, Decimal>

  predicate KeysLower(rates: Rates) {
    forall g :: g in rates ==> IsLower(g)
  }

  predicate NonNegative(rates: Rates) {
    forall g :: g in rates ==> Signum(rates[g]) >= 0
  }

  /** The rate a lookup by any spelling of a group name finds. */
  function RateOf(rates: Rates, group: string): Option<Decimal>
  {
    if Lower(group) in rates then Some(rates[Lower(group)]) else None
  }

  /** The table built from the configured (group, rate) pairs, in the order
      the configuration lists them. */
  function LoadedRates(groups: seq<(string, Decimal)>): Rates
  {
    if groups == [] then map[]
    else LoadedRates(groups[..|groups| - 1])[Lower(groups[|groups| - 1].0) := groups[|groups| - 1].1]
  }

  /** What the group command answers. */
  datatype GroupReply =
    | Usage
    | NoGroups
    | Listing(entries: Rates)
    | Shown(group: string, amount: Decimal)
    | NotConfigured(group: string)
    | Removed(group: string)
    | RemoveMissing(group: string)
    | InvalidFormat
    | Negative
    | Set(group: string, amount: Decimal)

  /** /salary group, given its arguments (args[0] is "group") and the amount
      argument as the number parser read it (None when it is not a number):
      the reply and the new table. */
  function GroupCommand(rates: Rates, args: seq<string>, parsed: Option<Decimal>): (GroupReply, Rates)
  {
    if |args| < 2 then (Usage, rates)
    else if EqualsIgnoreCase(args[1], "list") then (if rates == map[] then NoGroups else Listing(rates), rates)
    else
      var group := Lower(args[1]);
      if |args| == 2 then
        (if group in rates then Shown(group, rates[group]) else NotConfigured(group), rates)
      else if EqualsIgnoreCase(args[2], "0") || EqualsIgnoreCase(args[2], "remove") then
        if group in rates then (Removed(group), rates - {group}) else (RemoveMissing(group), rates)
      else
        match parsed
        case None => (InvalidFormat, rates)
        case Some(a) => if Signum(a) < 0 then (Negative, rates) else (Set(group, a), rates[group := a])
  }

  class GroupRateTable {
    var rates: Rates

    ghost predicate Valid()
      reads this
    {
      KeysLower(rates)
    }

    constructor()
      ensures rates == map[] && Valid()
    {
      rates := map[];
    }

    /** Clears the table and puts each configured group in turn. */
    method Load(groups: seq<(string, Decimal)>)
      modifies this
      ensures rates == LoadedRates(groups)
      ensures Valid()
    {
      rates := map[];
      var i := 0;
      while i < |groups|
        invariant 0 <= i <= |groups|
        invariant rates == LoadedRates(groups[..i])
        invariant KeysLower(rates)
      {
        assert groups[..i + 1][..i] == groups[..i];
        LowerIsLower(groups[i].0);
        rates := rates[Lower(groups[i].0) := groups[i].1];
        i := i + 1;
      }
      assert groups[..i] == groups;
    }

    method Save(group: string, amount: Decimal)
      requires Valid()
      modifies this
      ensures rates == old(rates)[Lower(group) := amount]
      ensures Valid()
    {
      LowerIsLower(group);
      rates := rates[Lower(group) := amount];
    }

    method Remove(group: string)
      requires Valid()
      modifies this
      ensures rates == old(rates) - {Lower(group)}
      ensures Valid()
    {
      rates := rates - {Lower(group)};
    }

    /** groupSalaries.get(group.toLowerCase()): the rate stored under the
        lower-cased name, or nothing. */
    function Get(group: string): (r: Option<Decimal>)
      reads this
      ensures r.Some? <==> Lower(group) in rates
      ensures r.Some? ==> r.value == rates[Lower(group)]
    {
      RateOf(rates, group)
    }

    method HandleGroupCommand(args: seq<string>, parsed: Option<Decimal>) returns (reply: GroupReply)
      requires Valid()
      modifies this
      ensures (reply, rates) == GroupCommand(old(rates), args, parsed)
      ensures Valid()
    {
      if |args| < 2 {
        return Usage;
      }
      if EqualsIgnoreCase(args[1], "list") {
        reply := if rates == map[] then NoGroups else Listing(rates);
        return;
      }
      var group := Lower(args[1]);
      LowerIsLower(args[1]);
      if |args| == 2 {
        reply := if group in rates then Shown(group, rates[group]) else NotConfigured(group);
        return;
      }
      if EqualsIgnoreCase(args[2], "0") || EqualsIgnoreCase(args[2], "remove") {
        if group in rates {
          Remove(group);
          reply := Removed(group);
        } else {
          reply := RemoveMissing(group);
        }
        return;
      }
      match parsed
      case None =>
        reply := InvalidFormat;
      case Some(a) =>
        if Signum(a) < 0 {
          reply := Negative;
        } else {
          Save(group, a);
          reply := Set(group, a);
        }
    }
  }

  // ---------------------------------------------------------------------
  // Properties of the table and of the command

  /** Loading keeps every configured group under its lower-cased name and
      adds nothing else. */
  lemma {:induction false} LoadedRatesKeys(groups: seq<(string, Decimal)>)
    ensures KeysLower(LoadedRates(groups))
    ensures forall g :: g in LoadedRates(groups) ==> exists i :: 0 <= i < |groups| && Lower(groups[i].0) == g
    ensures forall i :: 0 <= i < |groups| ==> Lower(groups[i].0) in LoadedRates(groups)
  {
    if groups != [] {
      var init, x := groups[..|groups| - 1], groups[|groups| - 1];
      LoadedRatesKeys(init);
      LowerIsLower(x.0);
      var r := LoadedRates(groups);
      forall g | g in r ensures exists i :: 0 <= i < |groups| && Lower(groups[i].0) == g {
        if g != Lower(x.0) {
          var i :| 0 <= i < |init| && Lower(init[i].0) == g;
          assert groups[i] == init[i];
        } else {
          assert Lower(groups[|groups| - 1].0) == g;
        }
      }
      forall i | 0 <= i < |groups| ensures Lower(groups[i].0) in r {
        if i < |init| {
          assert groups[i] == init[i];
        }
      }
    }
  }

  /** Each group gets the rate of the last configured group with the same
      lower-cased name, as configured: loading does not reject negative
      rates. */
  lemma {:induction false} LoadedRatesValues(groups: seq<(string, Decimal)>, i: nat)
    requires i < |groups|
    requires forall j :: i < j < |groups| ==> Lower(groups[j].0) != Lower(groups[i].0)
    ensures Lower(groups[i].0) in LoadedRates(groups)
    ensures LoadedRates(groups)[Lower(groups[i].0)] == groups[i].1
  {
    if i < |groups| - 1 {
      var init := groups[..|groups| - 1];
      assert init[i] == groups[i];
      LoadedRatesValues(init, i);
    }
  }

  /** Any spelling of a group name addresses the same entry: after setting
      by one spelling, every spelling finds the rate; after removing by one,
      none finds it. */
  lemma SpellingsShareEntry(rates: Rates, g1: string, g2: string, a: Decimal)
    requires Lower(g1) == Lower(g2)
    ensures RateOf(rates[Lower(g1) := a], g2) == Some(a)
    ensures RateOf(rates - {Lower(g1)}, g2) == None
    ensures RateOf(rates, g1) == RateOf(rates, g2)
  {
  }

  /** The group command is insensitive to the case of the group name and of
      the removal keyword. */
  lemma GroupCommandIgnoresCase(rates: Rates, args1: seq<string>, args2: seq<string>, parsed: Option<Decimal>)
    requires |args1| == |args2|
    requires |args1| >= 2 ==> Lower(args1[1]) == Lower(args2[1])
    requires |args1| >= 3 ==> Lower(args1[2]) == Lower(args2[2])
    ensures GroupCommand(rates, args1, parsed) == GroupCommand(rates, args2, parsed)
  {
  }

  /** The command changes at most the entry of the named group. */
  lemma GroupCommandTouchesOneKey(rates: Rates, args: seq<string>, parsed: Option<Decimal>)
    ensures var after := GroupCommand(rates, args, parsed).1;
      forall g :: (|args| < 2 || g != Lower(args[1])) ==>
        (g in after <==> g in rates) && (g in rates ==> after[g] == rates[g])
  {
  }

  /** "0" and "remove", in any case, remove the named group (or report it
      missing), whatever the parser made of the argument. */
  lemma RemoveKeywordRemoves(rates: Rates, args: seq<string>, parsed: Option<Decimal>)
    requires |args| >= 3 && !EqualsIgnoreCase(args[1], "list")
    requires EqualsIgnoreCase(args[2], "0") || EqualsIgnoreCase(args[2], "remove")
    ensures GroupCommand(rates, args, parsed).1 == rates - {Lower(args[1])}
    ensures GroupCommand(rates, args, parsed).0 ==
      (if Lower(args[1]) in rates then Removed(Lower(args[1])) else RemoveMissing(Lower(args[1])))
  {
  }

  /** "0.0", which the parser reads as zero with scale 1, is not a removal:
      it stores a zero rate. */
  lemma ZeroPointZeroSets(rates: Rates, args: seq<string>)
    requires |args| >= 3 && !EqualsIgnoreCase(args[1], "list") && args[2] == "0.0"
    ensures GroupCommand(rates, args, Some(Decimal(0, 1))) ==
      (Set(Lower(args[1]), Decimal(0, 1)), rates[Lower(args[1]) := Decimal(0, 1)])
  {
    assert |Lower(args[2])| == 3;
  }

  /** The command never stores a negative rate: it rejects one with the
      table unchanged, and a rate it sets is the one it reports. */
  lemma GroupCommandKeepsNonNegative(rates: Rates, args: seq<string>, parsed: Option<Decimal>)
    requires NonNegative(rates)
    ensures NonNegative(GroupCommand(rates, args, parsed).1)
    ensures GroupCommand(rates, args, parsed).0.Negative? ==> GroupCommand(rates, args, parsed).1 == rates
    ensures var (reply, after) := GroupCommand(rates, args, parsed);
      reply.Set? ==> Signum(reply.amount) >= 0 && reply.group in after && after[reply.group] == reply.amount
  {
    var removal := |args| >= 3 && (EqualsIgnoreCase(args[2], "0") || EqualsIgnoreCase(args[2], "remove"));
    if |args| < 3 || EqualsIgnoreCase(args[1], "list") {
      assert GroupCommand(rates, args, parsed).1 == rates;
    } else if removal {
      var g := Lower(args[1]);
      assert GroupCommand(rates, args, parsed).1 == if g in rates then rates - {g} else rates;
    } else if parsed.Some? && Signum(parsed.value) >= 0 {
      var g, a := Lower(args[1]), parsed.value;
      assert GroupCommand(rates, args, parsed) == (Set(g, a), rates[g := a]);
    } else {
      assert GroupCommand(rates, args, parsed).1 == rates;
    }
  }
  /** Every mutation the command performs keeps the keys lower-case. */
  lemma GroupCommandKeepsKeysLower(rates: Rates, args: seq<string>, parsed: Option<Decimal>)
    requires KeysLower(rates)
    ensures KeysLower(GroupCommand(rates, args, parsed).1)
  {
    if |args| >= 2 {
      LowerIsLower(args[1]);
    }
  }
}
