/**
 * The bookkeeping of the full version of the game as pure definitions:
 * business income, the tiered interest table, the income and roster sums the
 * game computes by scanning its dictionaries, and the invariants of the
 * business registry.  The class in FullGame keeps its state consistent with
 * these definitions.
 */
module Economy {
  import opened Options
  import opened Territory

  datatype BusinessKind = GunProduction | LocalBusinessTakeover | DrugProduction | TaxFrauds

  /** An entry of `active_businesses`: {"type": kind, "country": country}. */
  datatype Business = Business(kind: BusinessKind, country: Country)

  /** A gang member; its name is "Gang Member <number>". */
  datatype Member = GangMember(number: int)

  // ---------------------------------------------------------------------
  // Business income

  /** BUSINESS_INCOME_RATES: the base income per second of each kind. */
  function BaseIncome(k: BusinessKind): nat
  {
    match k
    case GunProduction => 100
    case LocalBusinessTakeover => 50
    case DrugProduction => 150
    case TaxFrauds => 75
  }

  /** The income of a business with n assigned members, in integer arithmetic. */
  function BusinessIncome(k: BusinessKind, n: nat): nat
  {
    BaseIncome(k) * (10 + n) / 10
  }

  /** BusinessIncome is int(base * (1 + n * 0.1)): the real-valued formula truncated. */
  lemma IncomeTruncates(k: BusinessKind, n: nat)
    ensures var r := BusinessIncome(k, n);
      r as real <= BaseIncome(k) as real * (1.0 + 0.1 * n as real) < r as real + 1.0
  {
    var b := BaseIncome(k);
    var p := b * (10 + n);
    var r := p / 10;
    assert 10 * r <= p < 10 * r + 10;
    assert b as real * (1.0 + 0.1 * n as real) == p as real / 10.0;
  }

  /** The income a territory earns: its business's income for its roster size, or 0. */
  function IncomeFor(b: Option<BusinessKind>, n: nat): nat
  {
    match b
    case None => 0
    case Some(k) => BusinessIncome(k, n)
  }

  /** Every member assigned adds to (never lowers) a business's income, which starts at
      the base rate. */
  lemma BusinessIncomeGrows(k: BusinessKind, n: nat, m: nat)
    requires n <= m
    ensures BaseIncome(k) <= BusinessIncome(k, n) <= BusinessIncome(k, m)
  {
    var b := BaseIncome(k);
    assert b * (10 + n) <= b * (10 + m);
    assert b * 10 <= b * (10 + n);
  }

  /** Gun Production with three members earns 130 per second. */
  lemma GunProductionWithThree()
    ensures BusinessIncome(GunProduction, 3) == 130
  {
  }

  // ---------------------------------------------------------------------
  // Interest

  /** BORROW_INTEREST_RATES in dictionary order: (debt threshold, rate per second). */
  const InterestTiers: seq<(int, real)> :=
    [(100, 0.001), (500, 0.0015), (1000, 0.002), (5000, 0.0025), (10000, 0.003)]

  /** The interest one pass over `tiers` adds: debt * rate for every tier whose
      threshold is at most the debt. */
  function TierInterest(tiers: seq<(int, real)>, debt: int): real
  {
    if tiers == [] then 0.0
    else
      var (amount, rate) := tiers[|tiers| - 1];
      TierInterest(tiers[..|tiers| - 1], debt) + (if amount <= debt then debt as real * rate else 0.0)
  }

  /** The interest charged for one elapsed second on the given debt. */
  function InterestDue(debt: int): real
  {
    TierInterest(InterestTiers, debt)
  }

  /** The summed rate of every tier at or below the debt (not the rate of the one
      matching bracket). */
  function CumulativeRate(debt: int): real
  {
    if debt >= 10000 then 0.01
    else if debt >= 5000 then 0.007
    else if debt >= 1000 then 0.0045
    else if debt >= 500 then 0.0025
    else if debt >= 100 then 0.001
    else 0.0
  }

  lemma InterestClosedForm(debt: int)
    ensures InterestDue(debt) == debt as real * CumulativeRate(debt)
  {
    var t := InterestTiers;
    var d := debt as real;
    assert t[..0] == [];
    assert t[..1][..0] == t[..0];
    assert t[..2][..1] == t[..1];
    assert t[..3][..2] == t[..2];
    assert t[..4][..3] == t[..3];
    assert t[..5][..4] == t[..4];
    assert t[..5] == t;
    assert TierInterest(t[..1], debt) == (if 100 <= debt then d * 0.001 else 0.0);
    assert TierInterest(t[..2], debt) == TierInterest(t[..1], debt) + (if 500 <= debt then d * 0.0015 else 0.0);
    assert TierInterest(t[..3], debt) == TierInterest(t[..2], debt) + (if 1000 <= debt then d * 0.002 else 0.0);
    assert TierInterest(t[..4], debt) == TierInterest(t[..3], debt) + (if 5000 <= debt then d * 0.0025 else 0.0);
    assert TierInterest(t, debt) == TierInterest(t[..4], debt) + (if 10000 <= debt then d * 0.003 else 0.0);
  }

  /** A debt of 600 qualifies for the 100 and 500 tiers: 600 * 0.001 + 600 * 0.0015 = 1.5. */
  lemma InterestOn600()
    ensures InterestDue(600) == 1.5
  {
    InterestClosedForm(600);
  }

  /** No interest below the first tier; otherwise at least 0.1 % and at most 1 % of the
      debt per second; never less on a larger debt. */
  lemma InterestBounds(debt: int, larger: int)
    requires 0 <= debt <= larger
    ensures debt < 100 ==> InterestDue(debt) == 0.0
    ensures debt >= 100 ==> 0.001 * debt as real <= InterestDue(debt) <= 0.01 * debt as real
    ensures InterestDue(debt) <= InterestDue(larger)
  {
    InterestClosedForm(debt);
    InterestClosedForm(larger);
    var r, r' := CumulativeRate(debt), CumulativeRate(larger);
    assert 0.0 <= r <= r';
    assert debt as real * r <= larger as real * r by {
      assert (larger - debt) as real * r >= 0.0;
    }
    assert larger as real * r <= larger as real * r' by {
      assert larger as real * (r' - r) >= 0.0;
    }
  }

  // ---------------------------------------------------------------------
  // Per-country sums (scans of the `countries` dictionary)

  /** The income one pass collects: business_income of every owned territory in cs that
      runs a business. */
  function IncomeDue(owned: PerCountry<bool>, cb: PerCountry<Option<BusinessKind>>,
                     bi: PerCountry<int>, cs: seq<Country>): int
  {
    if cs == [] then 0
    else
      var c := cs[|cs| - 1];
      IncomeDue(owned, cb, bi, cs[..|cs| - 1]) + (if owned.Get(c) && cb.Get(c).Some? then bi.Get(c) else 0)
  }

  lemma {:induction false} IncomeDueNonNegative(owned: PerCountry<bool>, cb: PerCountry<Option<BusinessKind>>,
                                                bi: PerCountry<int>, cs: seq<Country>)
    requires forall c: Country :: bi.Get(c) >= 0
    ensures IncomeDue(owned, cb, bi, cs) >= 0
  {
    if cs != [] {
      IncomeDueNonNegative(owned, cb, bi, cs[..|cs| - 1]);
    }
  }

  /** The number of members on the rosters of the territories cs. */
  function AssignedCount(rosters: PerCountry<seq<Member>>, cs: seq<Country>): nat
  {
    if cs == [] then 0
    else AssignedCount(rosters, cs[..|cs| - 1]) + |rosters.Get(cs[|cs| - 1])|
  }

  /** The members on the rosters of the territories cs, as a multiset. */
  function RosterBag(rosters: PerCountry<seq<Member>>, cs: seq<Country>): multiset<Member>
  {
    if cs == [] then multiset{}
    else RosterBag(rosters, cs[..|cs| - 1]) + multiset(rosters.Get(cs[|cs| - 1]))
  }

  lemma {:induction false} RosterBagSize(rosters: PerCountry<seq<Member>>, cs: seq<Country>)
    ensures |RosterBag(rosters, cs)| == AssignedCount(rosters, cs)
  {
    if cs != [] {
      RosterBagSize(rosters, cs[..|cs| - 1]);
    }
  }

  /** Replacing the roster of a territory not in cs leaves the bag and the count of cs alone. */
  lemma {:induction false} RosterElsewhere(rosters: PerCountry<seq<Member>>, cs: seq<Country>, c: Country, s: seq<Member>)
    requires c !in cs
    ensures RosterBag(rosters.Set(c, s), cs) == RosterBag(rosters, cs)
    ensures AssignedCount(rosters.Set(c, s), cs) == AssignedCount(rosters, cs)
  {
    if cs != [] {
      assert cs == cs[..|cs| - 1] + [cs[|cs| - 1]];
      RosterElsewhere(rosters, cs[..|cs| - 1], c, s);
    }
  }

  /** Replacing one roster, on a list that names each territory once, changes the bag
      and the count by exactly the difference of the two rosters. */
  lemma {:induction false} RosterUpdate(rosters: PerCountry<seq<Member>>, cs: seq<Country>, c: Country, s: seq<Member>)
    requires forall i, j :: 0 <= i < j < |cs| ==> cs[i] != cs[j]
    requires c in cs
    ensures RosterBag(rosters.Set(c, s), cs) + multiset(rosters.Get(c)) == RosterBag(rosters, cs) + multiset(s)
    ensures AssignedCount(rosters.Set(c, s), cs) + |rosters.Get(c)| == AssignedCount(rosters, cs) + |s|
  {
    var init, last := cs[..|cs| - 1], cs[|cs| - 1];
    assert cs == init + [last];
    if c == last {
      assert c !in init by {
        forall i | 0 <= i < |init| ensures init[i] != c {
          assert init[i] == cs[i];
        }
      }
      RosterElsewhere(rosters, init, c, s);
    } else {
      DropLast(cs, init, c);
      RosterUpdate(rosters, init, c, s);
      var r := rosters.Set(c, s);
      assert r.Get(last) == rosters.Get(last);
      var l := rosters.Get(last);
      assert RosterBag(r, cs) == RosterBag(r, init) + multiset(l);
      assert RosterBag(rosters, cs) == RosterBag(rosters, init) + multiset(l);
      ShiftBoth(RosterBag(r, init), RosterBag(rosters, init), multiset(l), multiset(rosters.Get(c)), multiset(s));
      assert AssignedCount(r, cs) == AssignedCount(r, init) + |l|;
      assert AssignedCount(rosters, cs) == AssignedCount(rosters, init) + |l|;
    }
  }

  /** Dropping the last territory of a list without repetition leaves a list without
      repetition that still names every other territory of the list. */
  lemma DropLast(cs: seq<Country>, init: seq<Country>, c: Country)
    requires forall i, j :: 0 <= i < j < |cs| ==> cs[i] != cs[j]
    requires c in cs && c != cs[|cs| - 1] && init == cs[..|cs| - 1]
    ensures forall i, j :: 0 <= i < j < |init| ==> init[i] != init[j]
    ensures c in init
  {
    forall i, j | 0 <= i < j < |init| ensures init[i] != init[j] {
      assert init[i] == cs[i] && init[j] == cs[j];
    }
    var k :| 0 <= k < |cs| && cs[k] == c;
    assert k < |init| && init[k] == c;
  }

  /** Adding the same bag to both sides of a balance keeps it. */
  lemma ShiftBoth(a: multiset<Member>, b: multiset<Member>, l: multiset<Member>, x: multiset<Member>, y: multiset<Member>)
    requires a + x == b + y
    ensures (a + l) + x == (b + l) + y
  {
    assert (a + l) + x == (a + x) + l;
    assert (b + l) + y == (b + y) + l;
  }

  /** The name the next hire gets: one more than the number of members in the pool and
      on all rosters together. */
  function NextMember(pool: seq<Member>, rosters: PerCountry<seq<Member>>): (m: Member)
    ensures m.number == |multiset(pool) + RosterBag(rosters, Countries)| + 1
  {
    RosterBagSize(rosters, Countries);
    GangMember(|pool| + AssignedCount(rosters, Countries) + 1)
  }

  // ---------------------------------------------------------------------
  // The business registry: `country_business` and `active_businesses`

  /** Each entry's territory records its kind; no territory hosts two entries; a
      territory records a kind only if some entry is there. */
  ghost predicate RegistryValid(cb: PerCountry<Option<BusinessKind>>, ab: seq<Business>)
  {
    && (forall i :: 0 <= i < |ab| ==> cb.Get(ab[i].country) == Some(ab[i].kind))
    && (forall i, j :: 0 <= i < j < |ab| ==> ab[i].country != ab[j].country)
    && (forall c: Country :: cb.Get(c).Some? ==> exists i :: 0 <= i < |ab| && ab[i].country == c)
  }

  /** Placing a new business on a territory that has none keeps the registry valid. */
  lemma RegistryAdd(cb: PerCountry<Option<BusinessKind>>, ab: seq<Business>, c: Country, k: BusinessKind)
    requires RegistryValid(cb, ab) && cb.Get(c) == None
    ensures RegistryValid(cb.Set(c, Some(k)), ab + [Business(k, c)])
  {
    var cb', ab' := cb.Set(c, Some(k)), ab + [Business(k, c)];
    forall i | 0 <= i < |ab| ensures ab[i].country != c {
      assert cb.Get(ab[i].country).Some?;
    }
    forall d: Country | cb'.Get(d).Some? ensures exists i :: 0 <= i < |ab'| && ab'[i].country == d {
      if d == c {
        assert ab'[|ab|].country == d;
      } else {
        var i :| 0 <= i < |ab| && ab[i].country == d;
        assert ab'[i].country == d;
      }
    }
  }

  /** Cancelling entry i and clearing its territory keeps the registry valid. */
  lemma RegistryRemove(cb: PerCountry<Option<BusinessKind>>, ab: seq<Business>, i: nat)
    requires RegistryValid(cb, ab) && i < |ab|
    ensures RegistryValid(cb.Set(ab[i].country, None), ab[..i] + ab[i + 1..])
  {
    var c := ab[i].country;
    var cb', ab' := cb.Set(c, None), ab[..i] + ab[i + 1..];
    forall j | 0 <= j < |ab'| ensures ab'[j] == ab[Skip(j, i)] && Skip(j, i) != i {
    }
    forall j | 0 <= j < |ab'| ensures cb'.Get(ab'[j].country) == Some(ab'[j].kind) {
      assert ab'[j] == ab[Skip(j, i)];
    }
    forall j, k | 0 <= j < k < |ab'| ensures ab'[j].country != ab'[k].country {
      assert Skip(j, i) < Skip(k, i);
    }
    forall d: Country | cb'.Get(d).Some? ensures exists j :: 0 <= j < |ab'| && ab'[j].country == d {
      var j :| 0 <= j < |ab| && ab[j].country == d;
      assert j != i;
      var jj := if j < i then j else j - 1;
      assert ab'[jj] == ab[Skip(jj, i)];
    }
  }

  /** The index in the full list of entry j once entry i is removed. */
  function Skip(j: nat, i: nat): nat
  {
    if j < i then j else j + 1
  }

  /** Moving entry i to a territory without a business keeps the registry valid. */
  lemma RegistryMove(cb: PerCountry<Option<BusinessKind>>, ab: seq<Business>, i: nat, c: Country)
    requires RegistryValid(cb, ab) && i < |ab| && cb.Get(c) == None
    ensures RegistryValid(cb.Set(ab[i].country, None).Set(c, Some(ab[i].kind)), ab[i := Business(ab[i].kind, c)])
  {
    var from := ab[i].country;
    var cb', ab' := cb.Set(from, None).Set(c, Some(ab[i].kind)), ab[i := Business(ab[i].kind, c)];
    forall j | 0 <= j < |ab| ensures ab[j].country != c {
      assert cb.Get(ab[j].country).Some?;
    }
    forall d: Country | cb'.Get(d).Some? ensures exists j :: 0 <= j < |ab'| && ab'[j].country == d {
      if d == c {
        assert ab'[i].country == d;
      } else {
        var j :| 0 <= j < |ab| && ab[j].country == d;
        assert j != i;
        assert ab'[j].country == d;
      }
    }
  }

  /** Every territory's business_income is what its business earns with its current roster. */
  ghost predicate IncomeConsistent(cb: PerCountry<Option<BusinessKind>>, rosters: PerCountry<seq<Member>>,
                                   bi: PerCountry<int>)
  {
    forall c: Country :: bi.Get(c) == IncomeFor(cb.Get(c), |rosters.Get(c)|)
  }

  /** Every entry of the registry stands on an owned territory. */
  ghost predicate BusinessesOwned(owned: PerCountry<bool>, ab: seq<Business>)
  {
    forall i :: 0 <= i < |ab| ==> owned.Get(ab[i].country)
  }

  /** Clearing a territory's business and income keeps incomes consistent. */
  lemma IncomeClear(cb: PerCountry<Option<BusinessKind>>, rosters: PerCountry<seq<Member>>,
                    bi: PerCountry<int>, c: Country)
    requires IncomeConsistent(cb, rosters, bi)
    ensures IncomeConsistent(cb.Set(c, None), rosters, bi.Set(c, 0))
  {
  }

  /** Placing a business and computing its income from the roster keeps incomes consistent. */
  lemma IncomeSet(cb: PerCountry<Option<BusinessKind>>, rosters: PerCountry<seq<Member>>,
                  bi: PerCountry<int>, c: Country, k: BusinessKind)
    requires IncomeConsistent(cb, rosters, bi)
    ensures IncomeConsistent(cb.Set(c, Some(k)), rosters, bi.Set(c, BusinessIncome(k, |rosters.Get(c)|)))
  {
  }

  /** The income table after territory c's roster becomes r: c's business, if any, is
      recomputed for the new size. */
  function Retally(cb: PerCountry<Option<BusinessKind>>, bi: PerCountry<int>, c: Country, n: nat): PerCountry<int>
  {
    match cb.Get(c)
    case Some(k) => bi.Set(c, BusinessIncome(k, n))
    case None => bi
  }

  /** Recomputing c's income after its roster changes keeps incomes consistent. */
  lemma IncomeResize(cb: PerCountry<Option<BusinessKind>>, rosters: PerCountry<seq<Member>>,
                     bi: PerCountry<int>, c: Country, r: seq<Member>)
    requires IncomeConsistent(cb, rosters, bi)
    ensures IncomeConsistent(cb, rosters.Set(c, r), Retally(cb, bi, c, |r|))
  {
  }

  // ---------------------------------------------------------------------
  // The territory lists the dialogs offer, in dictionary order

  /** The territories of cs appear in strictly increasing dictionary position, as in Countries. */
  predicate InOrder(cs: seq<Country>)
  {
    forall i, j :: 0 <= i < j < |cs| ==> Index(cs[i]) < Index(cs[j])
  }

  /** Keeping or dropping the head of an ordered list, before an ordered selection from its tail,
      gives an ordered list. */
  lemma SelectInOrder(cs: seq<Country>, head: seq<Country>, rest: seq<Country>)
    requires |cs| > 0 && (head == [] || head == [cs[0]])
    requires forall d :: d in rest ==> d in cs[1..]
    requires InOrder(cs[1..]) ==> InOrder(rest)
    ensures InOrder(cs) ==> InOrder(head + rest)
  {
    if InOrder(cs) {
      assert InOrder(cs[1..]) by {
        forall i, j | 0 <= i < j < |cs[1..]|
          ensures Index(cs[1..][i]) < Index(cs[1..][j])
        {
          assert cs[1..][i] == cs[i + 1] && cs[1..][j] == cs[j + 1];
        }
      }
      forall d | d in rest
        ensures Index(cs[0]) < Index(d)
      {
        var k :| 0 <= k < |cs[1..]| && cs[1..][k] == d;
        assert cs[k + 1] == d;
      }
    }
  }

  /** Countries lists the territories in dictionary order. */
  lemma CountriesInOrder()
    ensures InOrder(Countries)
  {
    forall i, j | 0 <= i < j < |Countries|
      ensures Index(Countries[i]) < Index(Countries[j])
    {
      assert Index(Countries[i]) == i && Index(Countries[j]) == j;
    }
  }

  /** [c for c in cs if owned[c]]: the territories the HQ and assign-member dialogs list. */
  function OwnedIn(owned: PerCountry<bool>, cs: seq<Country>): (r: seq<Country>)
    ensures forall c :: c in r <==> c in cs && owned.Get(c)
    ensures |r| <= |cs|
    ensures InOrder(cs) ==> InOrder(r)
  {
    if cs == [] then []
    else
      var head := if owned.Get(cs[0]) then [cs[0]] else [];
      SelectInOrder(cs, head, OwnedIn(owned, cs[1..]));
      head + OwnedIn(owned, cs[1..])
  }

  /** [c for c in cs if owned[c] and business[c] is None]: the territories the assign-business
      and relocate dialogs list. */
  function FreeIn(owned: PerCountry<bool>, cb: PerCountry<Option<BusinessKind>>, cs: seq<Country>): (r: seq<Country>)
    ensures forall c :: c in r <==> c in cs && owned.Get(c) && cb.Get(c) == None
    ensures |r| <= |cs|
    ensures InOrder(cs) ==> InOrder(r)
  {
    if cs == [] then []
    else
      var head := if owned.Get(cs[0]) && cb.Get(cs[0]) == None then [cs[0]] else [];
      SelectInOrder(cs, head, FreeIn(owned, cb, cs[1..]));
      head + FreeIn(owned, cb, cs[1..])
  }

  function OwnedCountries(owned: PerCountry<bool>): (r: seq<Country>)
    ensures InOrder(r)
  {
    CountriesInOrder();
    OwnedIn(owned, Countries)
  }

  function FreeCountries(owned: PerCountry<bool>, cb: PerCountry<Option<BusinessKind>>): (r: seq<Country>)
    ensures InOrder(r)
  {
    CountriesInOrder();
    FreeIn(owned, cb, Countries)
  }

  // ---------------------------------------------------------------------
  // The Members tab list: the pool first, then each territory's roster in order

  /** One line of the list: the member, the territory holding it (None for the pool)
      and its index in that collection. */
  datatype MemberRow = MemberRow(member: Member, country: Option<Country>, index: nat)

  function PoolRows(pool: seq<Member>): seq<MemberRow>
  {
    seq(|pool|, i requires 0 <= i < |pool| => MemberRow(pool[i], None, i))
  }

  function CountryRows(roster: seq<Member>, c: Country): seq<MemberRow>
  {
    seq(|roster|, i requires 0 <= i < |roster| => MemberRow(roster[i], Some(c), i))
  }

  function RosterRows(rosters: PerCountry<seq<Member>>, cs: seq<Country>): seq<MemberRow>
  {
    if cs == [] then []
    else RosterRows(rosters, cs[..|cs| - 1]) + CountryRows(rosters.Get(cs[|cs| - 1]), cs[|cs| - 1])
  }

  /** A row names a member where it actually is. */
  ghost predicate RowLocates(r: MemberRow, pool: seq<Member>, rosters: PerCountry<seq<Member>>)
  {
    match r.country
    case None => r.index < |pool| && pool[r.index] == r.member
    case Some(c) => r.index < |rosters.Get(c)| && rosters.Get(c)[r.index] == r.member
  }

  /** The list has one row per member and every row locates its member. */
  lemma {:induction false} RowsLocateMembers(pool: seq<Member>, rosters: PerCountry<seq<Member>>, cs: seq<Country>)
    ensures |RosterRows(rosters, cs)| == AssignedCount(rosters, cs)
    ensures forall k :: 0 <= k < |PoolRows(pool)| ==> RowLocates(PoolRows(pool)[k], pool, rosters)
    ensures forall k :: 0 <= k < |RosterRows(rosters, cs)| ==> RowLocates(RosterRows(rosters, cs)[k], pool, rosters)
  {
    if cs != [] {
      var init, c := cs[..|cs| - 1], cs[|cs| - 1];
      RowsLocateMembers(pool, rosters, init);
      var a, b := RosterRows(rosters, init), CountryRows(rosters.Get(c), c);
      forall k | 0 <= k < |a + b| ensures RowLocates((a + b)[k], pool, rosters) {
        if k >= |a| {
          assert (a + b)[k] == b[k - |a|];
        }
      }
    }
  }
}
