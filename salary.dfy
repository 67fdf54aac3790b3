/** The salary of one recipient: the resolved permission groups (with the
    "default" fallback for a player who has none) and the exact sum of the
    configured rates of those groups. */
module Salary {

  import opened Wrappers
  import opened Text
  import opened Decimals
  import opened RateTable

  /** The group list after the fallback: a player without groups is treated
      as a member of "default" when that group has a rate. */
  function ResolveGroups(vault: seq<string>, rates: Rates): (r: seq<string>)
    ensures vault != [] ==> r == vault
    ensures vault == [] ==> (r == ["default"] <==> "default" in rates) && (r == [] <==> "default" !in rates)
  {
    if vault == [] && "default" in rates then ["default"] else vault
  }

  /** What one group adds to the salary: its rate, or nothing. */
  function RateTerm(rates: Rates, g: string): Decimal
  {
    if Lower(g) in rates then rates[Lower(g)] else Zero
  }

  /** The running total of the salary loop: each group with a rate is added,
      in list order, to a total that starts at zero. */
  function SalaryOf(rates: Rates, groups: seq<string>): Decimal
  {
    if groups == [] then Zero
    else
      var total := SalaryOf(rates, groups[..|groups| - 1]);
      var g := groups[|groups| - 1];
      if Lower(g) in rates then Add(total, rates[Lower(g)]) else total
  }

  method CalculateSalary(table: GroupRateTable, groups: seq<string>) returns (total: Decimal)
    ensures total == SalaryOf(table.rates, groups)
  {
    total := Zero;
    var i := 0;
    while i < |groups|
      invariant 0 <= i <= |groups|
      invariant total == SalaryOf(table.rates, groups[..i])
    {
      assert groups[..i + 1][..i] == groups[..i];
      var rate := table.Get(groups[i]);
      if rate.Some? {
        total := Add(total, rate.value);
      }
      i := i + 1;
    }
    assert groups[..i] == groups;
  }

  // ---------------------------------------------------------------------
  // Properties

  /** Appending a group adds its term; a group without a rate adds nothing. */
  lemma SalaryOfSnoc(rates: Rates, groups: seq<string>, g: string)
    ensures SalaryOf(rates, groups + [g]) == Add(SalaryOf(rates, groups), RateTerm(rates, g))
  {
    assert (groups + [g])[..|groups|] == groups;
    AddZeroRight(SalaryOf(rates, groups));
  }

  /** The salary of a concatenation is the exact sum of the salaries. */
  lemma {:induction false} SalaryOfAppend(rates: Rates, a: seq<string>, b: seq<string>)
    ensures SalaryOf(rates, a + b) == Add(SalaryOf(rates, a), SalaryOf(rates, b))
  {
    if b == [] {
      assert a + b == a;
      AddZeroRight(SalaryOf(rates, a));
    } else {
      var init, g := b[..|b| - 1], b[|b| - 1];
      assert a + b == (a + init) + [g];
      assert b == init + [g];
      SalaryOfAppend(rates, a, init);
      SalaryOfSnoc(rates, a + init, g);
      SalaryOfSnoc(rates, init, g);
      AddAssociates(SalaryOf(rates, a), SalaryOf(rates, init), RateTerm(rates, g));
    }
  }

  /** A group without a rate contributes nothing, wherever it appears. */
  lemma UnknownGroupAddsNothing(rates: Rates, a: seq<string>, g: string, b: seq<string>)
    requires Lower(g) !in rates
    ensures SalaryOf(rates, a + [g] + b) == SalaryOf(rates, a + b)
  {
    SalaryOfAppend(rates, a + [g], b);
    SalaryOfSnoc(rates, a, g);
    AddZeroRight(SalaryOf(rates, a));
    SalaryOfAppend(rates, a, b);
  }

  /** Taking a group out of the middle of the list and adding it last does
      not change the salary. */
  lemma MoveToEnd(rates: Rates, left: seq<string>, g: string, right: seq<string>)
    ensures SalaryOf(rates, left + [g] + right) == Add(SalaryOf(rates, left + right), RateTerm(rates, g))
  {
    SalaryOfAppend(rates, left, right);
    SalaryOfAppend(rates, left + [g], right);
    SalaryOfSnoc(rates, left, g);
    var l, r, t := SalaryOf(rates, left), SalaryOf(rates, right), RateTerm(rates, g);
    calc {
      SalaryOf(rates, left + [g] + right);
      Add(Add(l, t), r);
      { AddAssociates(l, t, r); }
      Add(l, Add(t, r));
      { AddCommutes(t, r); }
      Add(l, Add(r, t));
      { AddAssociates(l, r, t); }
      Add(Add(l, r), t);
    }
  }

  lemma RemoveMatching(a: seq<string>, b: seq<string>, i: nat)
    requires a != [] && multiset(a) == multiset(b) && i < |b| && b[i] == a[|a| - 1]
    ensures multiset(a[..|a| - 1]) == multiset(b[..i] + b[i + 1..])
  {
    var init, g := a[..|a| - 1], a[|a| - 1];
    var left, right := b[..i], b[i + 1..];
    assert a == init + [g];
    assert b == left + [g] + right;
    assert multiset(a) == multiset(init) + multiset{g};
    assert multiset(b) == multiset(left + right) + multiset{g};
    forall x ensures multiset(init)[x] == multiset(left + right)[x] {
      assert multiset(a)[x] == multiset(b)[x];
    }
  }

  /** The order of the groups does not matter. */
  lemma {:induction false} SalaryOfPermutation(rates: Rates, a: seq<string>, b: seq<string>)
    requires multiset(a) == multiset(b)
    ensures SalaryOf(rates, a) == SalaryOf(rates, b)
    decreases |a|
  {
    if a != [] {
      var init, g := a[..|a| - 1], a[|a| - 1];
      assert a == init + [g];
      assert g in multiset(b);
      var i :| 0 <= i < |b| && b[i] == g;
      var left, right := b[..i], b[i + 1..];
      assert b == left + [g] + right;
      RemoveMatching(a, b, i);
      SalaryOfPermutation(rates, init, left + right);
      SalaryOfSnoc(rates, init, g);
      MoveToEnd(rates, left, g, right);
    } else {
      assert |b| == |multiset(b)| == 0;
    }
  }

  /** A player without groups earns exactly the "default" rate when one is
      configured and nothing otherwise. */
  lemma DefaultFallback(rates: Rates)
    ensures SalaryOf(rates, ResolveGroups([], rates)) == if "default" in rates then rates["default"] else Zero
  {
    if "default" in rates {
      assert Lower("default") == "default";
      AddZeroLeft(rates["default"]);
    }
  }

  /** With non-negative rates the salary is never negative. */
  lemma {:induction false} SalaryNonNegative(rates: Rates, groups: seq<string>)
    requires NonNegative(rates)
    ensures Signum(SalaryOf(rates, groups)) >= 0
  {
    if groups != [] {
      var init, g := groups[..|groups| - 1], groups[|groups| - 1];
      SalaryNonNegative(rates, init);
      if Lower(g) in rates {
        AddMonotone(SalaryOf(rates, init), rates[Lower(g)]);
      }
    }
  }

  lemma ThreeGroups(rates: Rates, g1: string, g2: string, g3: string)
    requires Lower(g1) in rates && Lower(g2) in rates && Lower(g3) !in rates
    ensures SalaryOf(rates, [g1, g2, g3]) == Add(rates[Lower(g1)], rates[Lower(g2)])
  {
    SalaryOfSnoc(rates, [], g1);
    AddZeroLeft(rates[Lower(g1)]);
    SalaryOfSnoc(rates, [g1], g2);
    assert [g1] + [g2] == [g1, g2];
    SalaryOfSnoc(rates, [g1, g2], g3);
    assert [g1, g2] + [g3] == [g1, g2, g3];
    AddZeroRight(Add(rates[Lower(g1)], rates[Lower(g2)]));
  }

  lemma LowerExamples()
    ensures Lower("VIP") == "vip" && Lower("Admin") == "admin"
    ensures Lower("Member") != "vip" && Lower("Member") != "admin"
  {
  }

  /** The configured defaults at work: a member of VIP (0.00000055, read as
      55 at scale 8) and Admin (0.001, scale 3) who is also in a group
      without a rate earns 0.00100055 exactly. */
  lemma VipAdminExample()
    ensures var rates := map["vip" := Decimal(55, 8), "admin" := Decimal(1, 3)];
      SalaryOf(rates, ["VIP", "Admin", "Member"]) == Decimal(100055, 8)
  {
    var rates := map["vip" := Decimal(55, 8), "admin" := Decimal(1, 3)];
    LowerExamples();
    ThreeGroups(rates, "VIP", "Admin", "Member");
  }
}
