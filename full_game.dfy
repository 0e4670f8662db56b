/**
 * The game state of the full version and the operations its event loop performs:
 * every branch of the mouse-click chain and the once-a-frame income, interest and
 * date update.  The wall clock is the parameter `now`.
 */
module FullGame {
  import opened Options
  import opened Geometry
  import opened Territory
  import opened Economy
  import opened FullData

  /** Before the first purchase nothing is owned and there is no HQ; afterwards the HQ
      is an owned territory. */
  ghost predicate HeadquartersValid(firstPurchase: bool, hq: Option<Country>, owned: PerCountry<bool>)
  {
    && (firstPurchase ==> hq == None && forall c: Country :: !owned.Get(c))
    && (!firstPurchase ==> hq.Some? && owned.Get(hq.value))
  }

  /** Removing an entry keeps every remaining entry on an owned territory. */
  lemma OwnedAfterRemove(owned: PerCountry<bool>, ab: seq<Business>, i: nat)
    requires BusinessesOwned(owned, ab) && i < |ab|
    ensures BusinessesOwned(owned, ab[..i] + ab[i + 1..])
  {
    var ab' := ab[..i] + ab[i + 1..];
    forall j | 0 <= j < |ab'| ensures owned.Get(ab'[j].country) {
      assert ab'[j] == ab[if j < i then j else j + 1];
    }
  }

  /** Appending an entry on an owned territory keeps every entry on an owned territory. */
  lemma OwnedAfterAdd(owned: PerCountry<bool>, ab: seq<Business>, b: Business)
    requires BusinessesOwned(owned, ab) && owned.Get(b.country)
    ensures BusinessesOwned(owned, ab + [b])
  {
    assert forall j :: 0 <= j < |ab| ==> (ab + [b])[j] == ab[j];
  }

  /** Moving pool member j onto roster c keeps the bag of all members and their number. */
  lemma MovedMember(pool: seq<Member>, j: nat, rosters: PerCountry<seq<Member>>, c: Country)
    requires j < |pool|
    ensures var roster := rosters.Get(c) + [pool[j]];
      multiset(pool[..j] + pool[j + 1..]) + RosterBag(rosters.Set(c, roster), Countries)
        == multiset(pool) + RosterBag(rosters, Countries)
    ensures var roster := rosters.Get(c) + [pool[j]];
      |pool[..j] + pool[j + 1..]| + AssignedCount(rosters.Set(c, roster), Countries)
        == |pool| + AssignedCount(rosters, Countries)
  {
    var roster := rosters.Get(c) + [pool[j]];
    CountriesListed(c);
    RosterUpdate(rosters, Countries, c, roster);
    var rest := pool[..j] + pool[j + 1..];
    assert pool == pool[..j] + [pool[j]] + pool[j + 1..];
    assert multiset(pool) == multiset(rest) + multiset{pool[j]};
    assert multiset(roster) == multiset(rosters.Get(c)) + multiset{pool[j]};
    var before, after := RosterBag(rosters, Countries), RosterBag(rosters.Set(c, roster), Countries);
    assert after + multiset(rosters.Get(c)) == (before + multiset{pool[j]}) + multiset(rosters.Get(c));
    Cancel(after, before + multiset{pool[j]}, multiset(rosters.Get(c)));
  }

  /** Moving member i of roster c to the end of the pool keeps the bag and the number. */
  lemma ReturnedMember(pool: seq<Member>, rosters: PerCountry<seq<Member>>, c: Country, i: nat)
    requires i < |rosters.Get(c)|
    ensures var from := rosters.Get(c);
      multiset(pool + [from[i]]) + RosterBag(rosters.Set(c, from[..i] + from[i + 1..]), Countries)
        == multiset(pool) + RosterBag(rosters, Countries)
    ensures var from := rosters.Get(c);
      |pool + [from[i]]| + AssignedCount(rosters.Set(c, from[..i] + from[i + 1..]), Countries)
        == |pool| + AssignedCount(rosters, Countries)
  {
    var from := rosters.Get(c);
    var x := from[i];
    RosterLoses(rosters, c, i);
    assert multiset(pool + [x]) == multiset(pool) + multiset{x};
  }

  /** Taking member i out of roster c takes exactly that member out of the bag of all
      rosters, and one from their count. */
  lemma RosterLoses(rosters: PerCountry<seq<Member>>, c: Country, i: nat)
    requires i < |rosters.Get(c)|
    ensures var from := rosters.Get(c);
      RosterBag(rosters.Set(c, from[..i] + from[i + 1..]), Countries) + multiset{from[i]}
        == RosterBag(rosters, Countries)
    ensures var from := rosters.Get(c);
      AssignedCount(rosters.Set(c, from[..i] + from[i + 1..]), Countries) + 1 == AssignedCount(rosters, Countries)
  {
    var from := rosters.Get(c);
    var x := from[i];
    var roster := from[..i] + from[i + 1..];
    var before, after := RosterBag(rosters, Countries), RosterBag(rosters.Set(c, roster), Countries);
    CountriesListed(c);
    RosterUpdate(rosters, Countries, c, roster);
    assert from == from[..i] + [x] + from[i + 1..];
    assert multiset(from) == multiset(roster) + multiset{x};
    assert (after + multiset{x}) + multiset(roster) == before + multiset(roster);
    Cancel(after + multiset{x}, before, multiset(roster));
  }

  /** A multiset added to both sides of an equation cancels. */
  lemma Cancel<T>(x: multiset<T>, y: multiset<T>, a: multiset<T>)
    requires x + a == y + a
    ensures x == y
  {
    forall m ensures x[m] == y[m] {
      assert (x + a)[m] == (y + a)[m];
    }
  }

  class GameState {
    var money: real
    var bankDebt: int
    var bankInterest: real
    var firstPurchase: bool
    /** The HQ: the first territory bought, or the one chosen later. */
    var firstBoughtCountry: Option<Country>
    var owned: PerCountry<bool>
    var businessIncome: PerCountry<int>
    /** The general pool. */
    var gangMembers: seq<Member>
    /** Each territory's roster. */
    var countryGangMembers: PerCountry<seq<Member>>
    var countryBusiness: PerCountry<Option<BusinessKind>>
    var activeBusinesses: seq<Business>
    var ui: Dialogs
    var paused: bool
    var lastBusinessIncomeTime: real
    var lastInterestTime: real
    var lastDateUpdate: real
    /** Days since the start date, 2 December 2010. */
    var day: int

    /** The invariant of the bookkeeping; the dialog flags and clocks are not part of it. */
    ghost predicate Valid()
      reads this`money, this`bankDebt, this`bankInterest, this`firstPurchase, this`firstBoughtCountry,
            this`owned, this`businessIncome, this`countryGangMembers, this`countryBusiness, this`activeBusinesses
    {
      && money >= 0.0 && bankDebt >= 0 && bankInterest >= 0.0
      && RegistryValid(countryBusiness, activeBusinesses)
      && BusinessesOwned(owned, activeBusinesses)
      && IncomeConsistent(countryBusiness, countryGangMembers, businessIncome)
      && HeadquartersValid(firstPurchase, firstBoughtCountry, owned)
    }

    /** All members, wherever they are. */
    ghost function Roster(): multiset<Member>
      reads this`gangMembers, this`countryGangMembers
    {
      multiset(gangMembers) + RosterBag(countryGangMembers, Countries)
    }

    /** The number of members, wherever they are. */
    ghost function Headcount(): nat
      reads this`gangMembers, this`countryGangMembers
    {
      |gangMembers| + AssignedCount(countryGangMembers, Countries)
    }

    // -------------------------------------------------------------------
    // Frames

    /** No territory is ever given up. */
    twostate predicate OwnershipKept()
      reads this`money, this`bankDebt, this`bankInterest, this`firstPurchase, this`firstBoughtCountry,
            this`owned, this`businessIncome, this`gangMembers, this`countryGangMembers, this`countryBusiness,
            this`activeBusinesses
    {
      forall c: Country :: old(owned).Get(c) ==> owned.Get(c)
    }

    twostate predicate BankSame()
      reads this`money, this`bankDebt, this`bankInterest, this`firstPurchase, this`firstBoughtCountry,
            this`owned, this`businessIncome, this`gangMembers, this`countryGangMembers, this`countryBusiness,
            this`activeBusinesses
    {
      money == old(money) && bankDebt == old(bankDebt) && bankInterest == old(bankInterest)
    }

    twostate predicate TerritorySame()
      reads this`money, this`bankDebt, this`bankInterest, this`firstPurchase, this`firstBoughtCountry,
            this`owned, this`businessIncome, this`gangMembers, this`countryGangMembers, this`countryBusiness,
            this`activeBusinesses
    {
      owned == old(owned) && firstPurchase == old(firstPurchase) && firstBoughtCountry == old(firstBoughtCountry)
    }

    twostate predicate GangSame()
      reads this`money, this`bankDebt, this`bankInterest, this`firstPurchase, this`firstBoughtCountry,
            this`owned, this`businessIncome, this`gangMembers, this`countryGangMembers, this`countryBusiness,
            this`activeBusinesses
    {
      gangMembers == old(gangMembers) && countryGangMembers == old(countryGangMembers)
    }

    twostate predicate BusinessSame()
      reads this`money, this`bankDebt, this`bankInterest, this`firstPurchase, this`firstBoughtCountry,
            this`owned, this`businessIncome, this`gangMembers, this`countryGangMembers, this`countryBusiness,
            this`activeBusinesses
    {
      countryBusiness == old(countryBusiness) && activeBusinesses == old(activeBusinesses)
      && businessIncome == old(businessIncome)
    }

    /** Nothing but the dialog flags has changed. */
    twostate predicate BooksSame()
      reads this`money, this`bankDebt, this`bankInterest, this`firstPurchase, this`firstBoughtCountry,
            this`owned, this`businessIncome, this`gangMembers, this`countryGangMembers, this`countryBusiness,
            this`activeBusinesses
    {
      BankSame() && TerritorySame() && GangSame() && BusinessSame()
    }

    twostate predicate ClockSame()
      reads this`paused, this`lastBusinessIncomeTime, this`lastInterestTime, this`lastDateUpdate, this`day
    {
      paused == old(paused) && lastBusinessIncomeTime == old(lastBusinessIncomeTime)
      && lastInterestTime == old(lastInterestTime) && lastDateUpdate == old(lastDateUpdate) && day == old(day)
    }

    // -------------------------------------------------------------------
    // The effects of the operations on the bookkeeping

    /** Buying c: free while first_purchase holds, otherwise its cost; refused, with
        nothing changed, when money does not cover the price.  The first territory
        bought becomes the HQ. */
    twostate predicate PurchaseEffect(c: Country)
      reads this`money, this`bankDebt, this`bankInterest, this`firstPurchase, this`firstBoughtCountry,
            this`owned, this`businessIncome, this`gangMembers, this`countryGangMembers, this`countryBusiness,
            this`activeBusinesses
    {
      var cost := if old(firstPurchase) then 0.0 else Cost(c) as real;
      && (if old(money) >= cost then
            && money == old(money) - cost
            && owned == old(owned).Set(c, true)
            && !firstPurchase
            && firstBoughtCountry == (if old(firstPurchase) then Some(c) else old(firstBoughtCountry))
          else money == old(money) && TerritorySame())
      && bankDebt == old(bankDebt) && bankInterest == old(bankInterest) && GangSame() && BusinessSame()
    }

    /** Hiring: 150 for one new member at the end of the pool, or nothing. */
    twostate predicate HireEffect()
      reads this`money, this`bankDebt, this`bankInterest, this`firstPurchase, this`firstBoughtCountry,
            this`owned, this`businessIncome, this`gangMembers, this`countryGangMembers, this`countryBusiness,
            this`activeBusinesses
    {
      && (if old(money) >= HireCost then
            money == old(money) - HireCost
            && gangMembers == old(gangMembers) + [NextMember(old(gangMembers), old(countryGangMembers))]
          else money == old(money) && gangMembers == old(gangMembers))
      && countryGangMembers == old(countryGangMembers)
      && bankDebt == old(bankDebt) && bankInterest == old(bankInterest) && TerritorySame() && BusinessSame()
    }

    /** Selling pool member i: 90 back, the member leaves the pool, the rosters stay. */
    twostate predicate SellEffect(i: nat)
      reads this`money, this`bankDebt, this`bankInterest, this`firstPurchase, this`firstBoughtCountry,
            this`owned, this`businessIncome, this`gangMembers, this`countryGangMembers, this`countryBusiness,
            this`activeBusinesses
    {
      && i < |old(gangMembers)|
      && money == old(money) + SellRefund
      && gangMembers == old(gangMembers)[..i] + old(gangMembers)[i + 1..]
      && countryGangMembers == old(countryGangMembers)
      && bankDebt == old(bankDebt) && bankInterest == old(bankInterest) && TerritorySame() && BusinessSame()
    }

    /** Cancelling entry i: 700, the entry leaves the list and its territory's business
        slot and income are cleared. */
    twostate predicate CancelEffect(i: nat)
      reads this`money, this`bankDebt, this`bankInterest, this`firstPurchase, this`firstBoughtCountry,
            this`owned, this`businessIncome, this`gangMembers, this`countryGangMembers, this`countryBusiness,
            this`activeBusinesses
    {
      && i < |old(activeBusinesses)|
      && var c := old(activeBusinesses)[i].country;
      && money == old(money) - CancelFee
      && activeBusinesses == old(activeBusinesses)[..i] + old(activeBusinesses)[i + 1..]
      && countryBusiness == old(countryBusiness).Set(c, None)
      && businessIncome == old(businessIncome).Set(c, 0)
      && bankDebt == old(bankDebt) && bankInterest == old(bankInterest) && TerritorySame() && GangSame()
    }

    /** Borrowing: the amount is added to money and to the debt alike. */
    twostate predicate BorrowEffect(amount: nat)
      reads this`money, this`bankDebt, this`bankInterest, this`firstPurchase, this`firstBoughtCountry,
            this`owned, this`businessIncome, this`gangMembers, this`countryGangMembers, this`countryBusiness,
            this`activeBusinesses
    {
      money == old(money) + amount as real && bankDebt == old(bankDebt) + amount
      && bankInterest == old(bankInterest) && TerritorySame() && GangSame() && BusinessSame()
    }

    /** Repaying: with a debt and money for debt plus interest, both are paid and zeroed;
        otherwise nothing changes. */
    twostate predicate RepayEffect()
      reads this`money, this`bankDebt, this`bankInterest, this`firstPurchase, this`firstBoughtCountry,
            this`owned, this`businessIncome, this`gangMembers, this`countryGangMembers, this`countryBusiness,
            this`activeBusinesses
    {
      && (if old(bankDebt) > 0 && old(money) >= old(bankDebt) as real + old(bankInterest) then
            money == old(money) - (old(bankDebt) as real + old(bankInterest)) && bankDebt == 0 && bankInterest == 0.0
          else BankSame())
      && TerritorySame() && GangSame() && BusinessSame()
    }

    /** Choosing a kind: the 500 fee is taken when it can be paid. */
    twostate predicate FeeEffect()
      reads this`money, this`bankDebt, this`bankInterest, this`firstPurchase, this`firstBoughtCountry,
            this`owned, this`businessIncome, this`gangMembers, this`countryGangMembers, this`countryBusiness,
            this`activeBusinesses
    {
      && (if old(money) >= BusinessFee then money == old(money) - BusinessFee else money == old(money))
      && bankDebt == old(bankDebt) && bankInterest == old(bankInterest)
      && TerritorySame() && GangSame() && BusinessSame()
    }

    /** Placing kind k on c: the slot is set, the income computed for c's roster, the entry appended. */
    twostate predicate AssignBusinessEffect(k: BusinessKind, c: Country)
      reads this`money, this`bankDebt, this`bankInterest, this`firstPurchase, this`firstBoughtCountry,
            this`owned, this`businessIncome, this`gangMembers, this`countryGangMembers, this`countryBusiness,
            this`activeBusinesses
    {
      && countryBusiness == old(countryBusiness).Set(c, Some(k))
      && businessIncome == old(businessIncome).Set(c, BusinessIncome(k, |old(countryGangMembers).Get(c)|))
      && activeBusinesses == old(activeBusinesses) + [Business(k, c)]
      && BankSame() && TerritorySame() && GangSame()
    }

    /** Moving pool member j to c's roster; c's income follows its new roster size. */
    twostate predicate AssignMemberEffect(j: nat, c: Country)
      reads this`money, this`bankDebt, this`bankInterest, this`firstPurchase, this`firstBoughtCountry,
            this`owned, this`businessIncome, this`gangMembers, this`countryGangMembers, this`countryBusiness,
            this`activeBusinesses
    {
      && j < |old(gangMembers)|
      && var roster := old(countryGangMembers).Get(c) + [old(gangMembers)[j]];
      && gangMembers == old(gangMembers)[..j] + old(gangMembers)[j + 1..]
      && countryGangMembers == old(countryGangMembers).Set(c, roster)
      && businessIncome == Retally(old(countryBusiness), old(businessIncome), c, |roster|)
      && countryBusiness == old(countryBusiness) && activeBusinesses == old(activeBusinesses)
      && BankSame() && TerritorySame()
    }

    /** Moving member i of c's roster to the end of the pool; c's income follows. */
    twostate predicate UnassignEffect(c: Country, i: nat)
      reads this`money, this`bankDebt, this`bankInterest, this`firstPurchase, this`firstBoughtCountry,
            this`owned, this`businessIncome, this`gangMembers, this`countryGangMembers, this`countryBusiness,
            this`activeBusinesses
    {
      && i < |old(countryGangMembers).Get(c)|
      && var from := old(countryGangMembers).Get(c);
      && var roster := from[..i] + from[i + 1..];
      && gangMembers == old(gangMembers) + [from[i]]
      && countryGangMembers == old(countryGangMembers).Set(c, roster)
      && businessIncome == Retally(old(countryBusiness), old(businessIncome), c, |roster|)
      && countryBusiness == old(countryBusiness) && activeBusinesses == old(activeBusinesses)
      && BankSame() && TerritorySame()
    }

    /** Moving entry j to c: the old territory loses slot and income, c gets both. */
    twostate predicate RelocateEffect(j: nat, c: Country)
      reads this`money, this`bankDebt, this`bankInterest, this`firstPurchase, this`firstBoughtCountry,
            this`owned, this`businessIncome, this`gangMembers, this`countryGangMembers, this`countryBusiness,
            this`activeBusinesses
    {
      && j < |old(activeBusinesses)|
      && var b := old(activeBusinesses)[j];
      && activeBusinesses == old(activeBusinesses)[j := Business(b.kind, c)]
      && countryBusiness == old(countryBusiness).Set(b.country, None).Set(c, Some(b.kind))
      && businessIncome == old(businessIncome).Set(b.country, 0).Set(c, BusinessIncome(b.kind, |old(countryGangMembers).Get(c)|))
      && BankSame() && TerritorySame() && GangSame()
    }

    // -------------------------------------------------------------------
    // Start-up

    constructor (start: real)
      ensures Valid()
      ensures money == 0.0 && bankDebt == 0 && bankInterest == 0.0
      ensures firstPurchase && firstBoughtCountry == None
      ensures forall c: Country :: !owned.Get(c) && countryGangMembers.Get(c) == [] && countryBusiness.Get(c) == None
      ensures gangMembers == [] && activeBusinesses == []
      ensures ui == AllClosed && !paused && day == 0
      ensures lastBusinessIncomeTime == start && lastInterestTime == start && lastDateUpdate == start
    {
      money, bankDebt, bankInterest := 0.0, 0, 0.0;
      firstPurchase, firstBoughtCountry := true, None;
      owned := Fill(false);
      businessIncome := Fill(0);
      gangMembers := [];
      countryGangMembers := Fill([]);
      countryBusiness := Fill(None);
      activeBusinesses := [];
      ui := AllClosed;
      paused := false;
      lastBusinessIncomeTime, lastInterestTime, lastDateUpdate := start, start, start;
      day := 0;
    }

    // -------------------------------------------------------------------
    // Operations on the bookkeeping, each behind a confirmation or a dialog row

    /** Yes on the purchase confirmation for territory c. */
    method ConfirmPurchase(c: Country)
      modifies this`money, this`owned, this`firstPurchase, this`firstBoughtCountry
      requires Valid()
      ensures Valid() && PurchaseEffect(c) && OwnershipKept()
    {
      var cost := if firstPurchase then 0.0 else Cost(c) as real;
      if money >= cost {
        money := money - cost;
        owned := owned.Set(c, true);
        if firstPurchase {
          firstPurchase := false;
          firstBoughtCountry := Some(c);
        }
      }
    }

    /** Yes on the second hiring confirmation. */
    method HireMember()
      modifies this`money, this`gangMembers
      requires Valid()
      ensures Valid() && HireEffect()
      ensures Roster() == old(Roster()) + (if |gangMembers| > |old(gangMembers)| then multiset{gangMembers[|gangMembers| - 1]} else multiset{})
    {
      if money >= HireCost {
        money := money - HireCost;
        gangMembers := gangMembers + [NextMember(gangMembers, countryGangMembers)];
      }
    }

    /** Yes on the sell confirmation for pool index i (the caller has ruled out a pop
        that fails). */
    method SellMember(i: nat)
      modifies this`money, this`gangMembers
      requires Valid() && i < |gangMembers|
      ensures Valid() && SellEffect(i)
      ensures Roster() + multiset{old(gangMembers)[i]} == old(Roster())
    {
      ghost var before := gangMembers;
      money := money + SellRefund;
      gangMembers := gangMembers[..i] + gangMembers[i + 1..];
      assert before == before[..i] + [before[i]] + before[i + 1..];
    }

    /** Yes on the cancel confirmation for entry i, with at least 700 in hand. */
    method CancelBusiness(i: nat)
      modifies this`money, this`activeBusinesses, this`countryBusiness, this`businessIncome
      requires Valid() && i < |activeBusinesses| && money >= CancelFee
      ensures Valid() && CancelEffect(i)
    {
      var c := activeBusinesses[i].country;
      RegistryRemove(countryBusiness, activeBusinesses, i);
      IncomeClear(countryBusiness, countryGangMembers, businessIncome, c);
      OwnedAfterRemove(owned, activeBusinesses, i);
      money := money - CancelFee;
      activeBusinesses := activeBusinesses[..i] + activeBusinesses[i + 1..];
      countryBusiness := countryBusiness.Set(c, None);
      businessIncome := businessIncome.Set(c, 0);
    }

    /** Yes on the borrow confirmation. */
    method Borrow(amount: nat)
      modifies this`money, this`bankDebt
      requires Valid()
      ensures Valid() && BorrowEffect(amount)
    {
      money := money + amount as real;
      bankDebt := bankDebt + amount;
    }

    /** Pay Debt: settles debt and interest together, or nothing. */
    method RepayDebt()
      modifies this`money, this`bankDebt, this`bankInterest
      requires Valid()
      ensures Valid() && RepayEffect()
    {
      if bankDebt > 0 && money >= bankDebt as real + bankInterest {
        money := money - (bankDebt as real + bankInterest);
        bankDebt := 0;
        bankInterest := 0.0;
      }
    }

    /** A kind button of the choose-business dialog: the fee, if it can be paid. */
    method PayBusinessFee() returns (paid: bool)
      modifies this`money
      requires Valid()
      ensures Valid() && FeeEffect()
      ensures paid <==> old(money) >= BusinessFee
    {
      paid := money >= BusinessFee;
      if paid {
        money := money - BusinessFee;
      }
    }

    /** A row of the assign-business dialog: the listed territories are owned and free. */
    method AssignBusiness(k: BusinessKind, c: Country)
      modifies this`countryBusiness, this`businessIncome, this`activeBusinesses
      requires Valid() && owned.Get(c) && countryBusiness.Get(c) == None
      ensures Valid() && AssignBusinessEffect(k, c)
    {
      RegistryAdd(countryBusiness, activeBusinesses, c, k);
      IncomeSet(countryBusiness, countryGangMembers, businessIncome, c, k);
      OwnedAfterAdd(owned, activeBusinesses, Business(k, c));
      countryBusiness := countryBusiness.Set(c, Some(k));
      businessIncome := businessIncome.Set(c, BusinessIncome(k, |countryGangMembers.Get(c)|));
      activeBusinesses := activeBusinesses + [Business(k, c)];
    }

    /** A row of the assign-member dialog: pool member j goes to territory c. */
    method AssignMember(j: nat, c: Country)
      modifies this`gangMembers, this`countryGangMembers, this`businessIncome
      requires Valid() && j < |gangMembers|
      ensures Valid() && AssignMemberEffect(j, c)
      ensures Roster() == old(Roster()) && Headcount() == old(Headcount())
    {
      MovedMember(gangMembers, j, countryGangMembers, c);
      var member := gangMembers[j];
      var roster := countryGangMembers.Get(c) + [member];
      IncomeResize(countryBusiness, countryGangMembers, businessIncome, c, roster);
      gangMembers := gangMembers[..j] + gangMembers[j + 1..];
      countryGangMembers := countryGangMembers.Set(c, roster);
      match countryBusiness.Get(c)
      case Some(k) =>
        businessIncome := businessIncome.Set(c, BusinessIncome(k, |roster|));
      case None =>
    }

    /** Unassign in a roster member's profile: member i of c returns to the pool. */
    method UnassignMember(c: Country, i: nat)
      modifies this`gangMembers, this`countryGangMembers, this`businessIncome
      requires Valid() && i < |countryGangMembers.Get(c)|
      ensures Valid() && UnassignEffect(c, i)
      ensures Roster() == old(Roster()) && Headcount() == old(Headcount())
    {
      ReturnedMember(gangMembers, countryGangMembers, c, i);
      var from := countryGangMembers.Get(c);
      var roster := from[..i] + from[i + 1..];
      IncomeResize(countryBusiness, countryGangMembers, businessIncome, c, roster);
      countryGangMembers := countryGangMembers.Set(c, roster);
      gangMembers := gangMembers + [from[i]];
      match countryBusiness.Get(c)
      case Some(k) =>
        businessIncome := businessIncome.Set(c, BusinessIncome(k, |roster|));
      case None =>
    }

    /** A row of the relocate dialog: entry j moves to owned, free territory c. */
    method RelocateBusiness(j: nat, c: Country)
      modifies this`countryBusiness, this`businessIncome, this`activeBusinesses
      requires Valid() && j < |activeBusinesses| && owned.Get(c) && countryBusiness.Get(c) == None
      ensures Valid() && RelocateEffect(j, c)
      ensures |activeBusinesses| == |old(activeBusinesses)|
      ensures businessIncome.Get(old(activeBusinesses)[j].country) == 0
      ensures countryBusiness.Get(old(activeBusinesses)[j].country) == None
    {
      var b := activeBusinesses[j];
      RegistryMove(countryBusiness, activeBusinesses, j, c);
      IncomeClear(countryBusiness, countryGangMembers, businessIncome, b.country);
      IncomeSet(countryBusiness.Set(b.country, None), countryGangMembers, businessIncome.Set(b.country, 0), c, b.kind);
      OwnedAfterMove(owned, activeBusinesses, j, c);
      countryBusiness := countryBusiness.Set(b.country, None).Set(c, Some(b.kind));
      businessIncome := businessIncome.Set(b.country, 0).Set(c, BusinessIncome(b.kind, |countryGangMembers.Get(c)|));
      activeBusinesses := activeBusinesses[j := Business(b.kind, c)];
    }

    // -------------------------------------------------------------------
    // The Members tab list

    /** The rows of the Members tab: the pool with its indices, then every territory's
        roster with its indices, territories in dictionary order. */
    method ListMembers() returns (rows: seq<MemberRow>)
      ensures rows == PoolRows(gangMembers) + RosterRows(countryGangMembers, Countries)
    {
      rows := [];
      var i := 0;
      while i < |gangMembers|
        invariant 0 <= i <= |gangMembers|
        invariant rows == PoolRows(gangMembers)[..i]
      {
        rows := rows + [MemberRow(gangMembers[i], None, i)];
        i := i + 1;
      }
      var ci := 0;
      while ci < |Countries|
        invariant 0 <= ci <= |Countries|
        invariant rows == PoolRows(gangMembers) + RosterRows(countryGangMembers, Countries[..ci])
      {
        var c := Countries[ci];
        var roster := countryGangMembers.Get(c);
        ghost var before := rows;
        var j := 0;
        while j < |roster|
          invariant 0 <= j <= |roster|
          invariant rows == before + CountryRows(roster, c)[..j]
        {
          rows := rows + [MemberRow(roster[j], Some(c), j)];
          j := j + 1;
        }
        assert Countries[..ci + 1][..ci] == Countries[..ci];
        ci := ci + 1;
      }
      assert Countries[..ci] == Countries;
    }

    // -------------------------------------------------------------------
    // Once a frame: income, interest and the date

    /** When a second or more has passed, every owned territory running a business has
        paid its business_income once, and the income clock restarted at now. */
    twostate predicate IncomeEffect(now: real)
      reads this`money, this`lastBusinessIncomeTime, this`owned, this`countryBusiness, this`businessIncome
    {
      if now - old(lastBusinessIncomeTime) >= 1.0 then
        money == old(money) + IncomeDue(owned, countryBusiness, businessIncome, Countries) as real
        && lastBusinessIncomeTime == now
      else money == old(money) && lastBusinessIncomeTime == old(lastBusinessIncomeTime)
    }

    /** With a debt and a second or more passed, one second of tiered interest has been
        added to the interest owed, and the interest clock restarted at now. */
    twostate predicate InterestEffect(now: real)
      reads this`bankInterest, this`lastInterestTime, this`bankDebt
    {
      if old(bankDebt) > 0 && now - old(lastInterestTime) >= 1.0 then
        bankInterest == old(bankInterest) + InterestDue(bankDebt) && lastInterestTime == now
      else bankInterest == old(bankInterest) && lastInterestTime == old(lastInterestTime)
    }

    /** update_date: when five seconds or more have passed, the date has advanced by the
        whole number of five-second intervals elapsed, and the date clock restarted at now. */
    twostate predicate DateEffect(now: real)
      reads this`day, this`lastDateUpdate
    {
      if now - old(lastDateUpdate) >= DateInterval then
        && lastDateUpdate == now
        && day > old(day)
        && (day - old(day)) as real * DateInterval <= now - old(lastDateUpdate)
        && now - old(lastDateUpdate) < (day - old(day) + 1) as real * DateInterval
      else day == old(day) && lastDateUpdate == old(lastDateUpdate)
    }

    method CollectIncome(now: real)
      modifies this`money, this`lastBusinessIncomeTime
      requires Valid()
      ensures Valid() && IncomeEffect(now) && money >= old(money)
    {
      if now - lastBusinessIncomeTime >= 1.0 {
        var i := 0;
        while i < |Countries|
          invariant 0 <= i <= |Countries|
          invariant money == old(money) + IncomeDue(owned, countryBusiness, businessIncome, Countries[..i]) as real
        {
          var c := Countries[i];
          if owned.Get(c) && countryBusiness.Get(c).Some? {
            money := money + businessIncome.Get(c) as real;
          }
          assert Countries[..i + 1][..i] == Countries[..i];
          i := i + 1;
        }
        assert Countries[..i] == Countries;
        IncomeNonNegative(owned, countryBusiness, countryGangMembers, businessIncome);
        lastBusinessIncomeTime := now;
      }
    }

    method ChargeInterest(now: real)
      modifies this`bankInterest, this`lastInterestTime
      requires Valid()
      ensures Valid() && InterestEffect(now) && bankInterest >= old(bankInterest)
    {
      if bankDebt > 0 && now - lastInterestTime >= 1.0 {
        var i := 0;
        while i < |InterestTiers|
          invariant 0 <= i <= |InterestTiers|
          invariant bankInterest == old(bankInterest) + TierInterest(InterestTiers[..i], bankDebt)
        {
          var (amount, rate) := InterestTiers[i];
          if amount <= bankDebt {
            bankInterest := bankInterest + bankDebt as real * rate;
          }
          assert InterestTiers[..i + 1][..i] == InterestTiers[..i];
          i := i + 1;
        }
        assert InterestTiers[..i] == InterestTiers;
        InterestBounds(bankDebt, bankDebt);
        lastInterestTime := now;
      }
    }

    method UpdateDate(now: real)
      modifies this`day, this`lastDateUpdate
      ensures DateEffect(now)
    {
      var elapsed := now - lastDateUpdate;
      if elapsed >= DateInterval {
        var days := Trunc(elapsed / DateInterval);
        day := day + days;
        lastDateUpdate := now;
      }
    }

    /** The update at the end of every frame; nothing happens while paused.  Only the
        money, the interest owed, the date and the three clocks can change. */
    method Tick(now: real)
      modifies this`money, this`lastBusinessIncomeTime, this`bankInterest, this`lastInterestTime,
               this`day, this`lastDateUpdate
      requires Valid()
      ensures Valid()
      ensures old(paused) ==> unchanged(this)
      ensures !old(paused) ==> bankDebt == old(bankDebt) && IncomeEffect(now) && InterestEffect(now) && DateEffect(now)
      ensures money >= old(money) && bankInterest >= old(bankInterest)
    {
      if !paused {
        CollectIncome(now);
        ChargeInterest(now);
        UpdateDate(now);
      }
    }

    // -------------------------------------------------------------------
    // The branches of the click chain.  Each branch performs its operation, then settles
    // the dialog flags.

    /** The purchase confirmation: Yes buys the territory it names and closes it (a Yes
        naming no territory does nothing); No closes it. */
    method OnPurchaseConfirm(e: Click)
      modifies this`ui, this`money, this`owned, this`firstPurchase, this`firstBoughtCountry
      requires Valid() && RouteOf(ui) == PurchaseConfirm
      ensures Valid() && OwnershipKept()
      ensures e == Yes && old(ui).confirmationCountry.Some? ==> PurchaseEffect(old(ui).confirmationCountry.value)
      ensures (e == Yes && old(ui).confirmationCountry.Some?) || e == No ==>
        ui == old(ui).(confirmationActive := false, confirmationCountry := None)
      ensures e == No ==> BankSame() && TerritorySame()
      ensures e != No && !(e == Yes && old(ui).confirmationCountry.Some?) ==> unchanged(this)
    {
      if e == Yes {
        if ui.confirmationCountry.Some? {
          var c := ui.confirmationCountry.value;
          ConfirmPurchase(c);
          ui := ui.(confirmationActive := false, confirmationCountry := None);
        }
      } else if e == No {
        ui := ui.(confirmationActive := false, confirmationCountry := None);
      }
    }

    /** The first hiring confirmation: Yes hands over to the second one, No closes it. */
    method OnHireFirstConfirm(e: Click)
      modifies this`ui
      requires RouteOf(ui) == HireFirstConfirm
      ensures e == Yes ==> ui == old(ui).(buyGangFirstConfirm := false, buyGangSecondConfirm := true)
      ensures e == Yes ==> RouteOf(ui) == HireSecondConfirm
      ensures e == No ==> ui == old(ui).(buyGangFirstConfirm := false)
      ensures e != Yes && e != No ==> ui == old(ui)
    {
      if e == Yes {
        ui := ui.(buyGangFirstConfirm := false, buyGangSecondConfirm := true);
      } else if e == No {
        ui := ui.(buyGangFirstConfirm := false);
      }
    }

    /** The second hiring confirmation: Yes hires (when 150 is at hand) and closes it; No
        closes it. */
    method OnHireSecondConfirm(e: Click)
      modifies this`ui, this`money, this`gangMembers
      requires Valid() && RouteOf(ui) == HireSecondConfirm
      ensures Valid()
      ensures e == Yes ==> HireEffect()
      ensures e == Yes || e == No ==> ui == old(ui).(buyGangSecondConfirm := false)
      ensures e != Yes ==> money == old(money) && gangMembers == old(gangMembers)
      ensures e != Yes && e != No ==> ui == old(ui)
    {
      if e == Yes {
        HireMember();
        ui := ui.(buyGangSecondConfirm := false);
      } else if e == No {
        ui := ui.(buyGangSecondConfirm := false);
      }
    }

    /** The sell confirmation: Yes sells the chosen pool member and closes it; a chosen
        index past the end of the pool makes the pop fail (ok is false, nothing changes);
        Yes with no member chosen, and No, only close it. */
    method OnSellConfirm(e: Click) returns (ok: bool)
      modifies this`ui, this`money, this`gangMembers
      requires Valid() && RouteOf(ui) == SellConfirm
      ensures Valid()
      ensures ok <==> !(e == Yes && old(ui).memberToSell.Some? && old(ui).memberToSell.value >= |old(gangMembers)|)
      ensures !ok ==> unchanged(this)
      ensures ok && e == Yes && old(ui).memberToSell.Some? ==> SellEffect(old(ui).memberToSell.value)
      ensures ok && (e == Yes || e == No) ==> ui == old(ui).(sellGangConfirm := false, memberToSell := None)
      ensures e == No || (e == Yes && old(ui).memberToSell.None?) ==> money == old(money) && gangMembers == old(gangMembers)
      ensures e != Yes && e != No ==> unchanged(this)
    {
      ok := true;
      if e == Yes {
        var chosen := ui.memberToSell;
        if chosen.Some? && chosen.value >= |gangMembers| {
          return false;
        }
        if chosen.Some? {
          SellMember(chosen.value);
        }
        ui := ui.(sellGangConfirm := false, memberToSell := None);
      } else if e == No {
        ui := ui.(sellGangConfirm := false, memberToSell := None);
      }
    }

    /** The cancel confirmation: Yes, with 700 at hand and some business running, cancels
        the chosen entry (no index, or one past the end, makes the pop fail: ok is false,
        nothing changes); either way Yes closes it, and so does No. */
    method OnCancelConfirm(e: Click) returns (ok: bool)
      modifies this`ui, this`money, this`activeBusinesses, this`countryBusiness, this`businessIncome
      requires Valid() && RouteOf(ui) == CancelConfirm
      ensures Valid()
      ensures ok <==> !(e == Yes && old(money) >= CancelFee && |old(activeBusinesses)| > 0 &&
                        !(old(ui).cancelBusinessIndex.Some? && old(ui).cancelBusinessIndex.value < |old(activeBusinesses)|))
      ensures !ok ==> unchanged(this)
      ensures ok && e == Yes && old(money) >= CancelFee && |old(activeBusinesses)| > 0 ==>
        CancelEffect(old(ui).cancelBusinessIndex.value)
      ensures ok && (e == Yes || e == No) ==> ui == old(ui).(cancelBusinessConfirm := false, cancelBusinessIndex := None)
      ensures e == No || (e == Yes && !(old(money) >= CancelFee && |old(activeBusinesses)| > 0)) ==>
        money == old(money) && BusinessSame()
      ensures e != Yes && e != No ==> unchanged(this)
    {
      ok := true;
      if e == Yes {
        var chosen := ui.cancelBusinessIndex;
        if money >= CancelFee && |activeBusinesses| > 0 {
          if chosen.None? || chosen.value >= |activeBusinesses| {
            return false;
          }
          CancelBusiness(chosen.value);
          ui := ui.(cancelBusinessConfirm := false, cancelBusinessIndex := None);
        } else {
          ui := ui.(cancelBusinessConfirm := false, cancelBusinessIndex := None);
        }
      } else if e == No {
        ui := ui.(cancelBusinessConfirm := false, cancelBusinessIndex := None);
      }
    }

    /** The borrow confirmation: Yes borrows the chosen amount; Yes and No both close it
        and forget the amount. */
    method OnBorrowConfirm(e: Click)
      modifies this`ui, this`money, this`bankDebt
      requires Valid() && RouteOf(ui) == BorrowConfirm
      ensures Valid()
      ensures e == Yes ==> BorrowEffect(old(ui).borrowAmount)
      ensures e == Yes || e == No ==> ui == old(ui).(borrowConfirmActive := false, borrowAmount := 0)
      ensures e != Yes ==> money == old(money) && bankDebt == old(bankDebt)
      ensures e != Yes && e != No ==> ui == old(ui)
    {
      if e == Yes {
        var amount := ui.borrowAmount;
        Borrow(amount);
        ui := ui.(borrowConfirmActive := false, borrowAmount := 0);
      } else if e == No {
        ui := ui.(borrowConfirmActive := false, borrowAmount := 0);
      }
    }

    /** The choose-business dialog: a kind button takes the 500 fee and, when it was paid,
        opens the assign-business dialog for that kind; either way the dialog closes.
        Other clicks are ignored. */
    method OnChooseBusiness(e: Click)
      modifies this`ui, this`money
      requires Valid() && RouteOf(ui) == ChooseBusiness
      ensures Valid()
      ensures e.KindButton? ==> FeeEffect()
      ensures e.KindButton? ==> ui == (if old(money) >= BusinessFee
                                        then old(ui).(chooseBusinessDialog := false, businessToAssign := Some(e.kind), assignBusinessDialog := true)
                                        else old(ui).(chooseBusinessDialog := false))
      ensures !e.KindButton? ==> unchanged(this)
    {
      if e.KindButton? {
        var paid := PayBusinessFee();
        if paid {
          ui := ui.(chooseBusinessDialog := false, businessToAssign := Some(e.kind), assignBusinessDialog := true);
        } else {
          ui := ui.(chooseBusinessDialog := false);
        }
      }
    }

    /** The change-location dialog: a row makes that owned territory the HQ and closes
        the dialog; a click outside the dialog closes it. */
    method OnChangeLocation(e: Click)
      modifies this`ui, this`firstBoughtCountry
      requires Valid() && RouteOf(ui) == ChangeLocation
      ensures Valid()
      ensures e.CountryRow? && e.row < |OwnedCountries(owned)| ==>
        firstBoughtCountry == Some(OwnedCountries(owned)[e.row]) && ui == old(ui).(changeLocationDialog := false)
      ensures !(e.CountryRow? && e.row < |OwnedCountries(owned)|) ==>
        firstBoughtCountry == old(firstBoughtCountry)
        && ui == (if RegionOf(e) != CentredDialog then old(ui).(changeLocationDialog := false) else old(ui))
    {
      var rows := OwnedCountries(owned);
      if e.CountryRow? && e.row < |rows| {
        assert owned.Get(rows[e.row]);
        firstBoughtCountry := Some(rows[e.row]);
        ui := ui.(changeLocationDialog := false);
      }
      if RegionOf(e) != CentredDialog {
        ui := ui.(changeLocationDialog := false);
      }
    }

    /** The assign-business dialog: a row (an owned territory with no business) receives
        the kind paid for, and the dialog closes and forgets the kind; a click outside
        closes it the same way, and the fee is not returned. */
    method OnAssignBusiness(e: Click)
      modifies this`ui, this`countryBusiness, this`businessIncome, this`activeBusinesses
      requires Valid() && RouteOf(ui) == Route.AssignBusiness
      ensures Valid()
      ensures var rows := FreeCountries(owned, old(countryBusiness));
        e.CountryRow? && e.row < |rows| && old(ui).businessToAssign.Some? ==>
          AssignBusinessEffect(old(ui).businessToAssign.value, rows[e.row])
      ensures var picked := e.CountryRow? && e.row < |FreeCountries(owned, old(countryBusiness))|;
        && (!(picked && old(ui).businessToAssign.Some?) ==> BusinessSame())
        && ui == (if picked || RegionOf(e) != CentredDialog
                  then old(ui).(assignBusinessDialog := false, businessToAssign := None) else old(ui))
    {
      var rows := FreeCountries(owned, countryBusiness);
      if e.CountryRow? && e.row < |rows| {
        var kind := ui.businessToAssign;
        if kind.Some? {
          AssignBusiness(kind.value, rows[e.row]);
        }
        ui := ui.(assignBusinessDialog := false, businessToAssign := None);
      } else if RegionOf(e) != CentredDialog {
        ui := ui.(assignBusinessDialog := false, businessToAssign := None);
      }
    }

    /** The assign-member dialog: a row (an owned territory) receives the chosen pool
        member, and the dialog closes; a chosen index past the end of the pool makes the
        pop fail (ok is false, nothing changes); a click outside closes it. */
    method OnAssignMember(e: Click) returns (ok: bool)
      modifies this`ui, this`gangMembers, this`countryGangMembers, this`businessIncome
      requires Valid() && RouteOf(ui) == Route.AssignMember
      ensures Valid()
      ensures Roster() == old(Roster()) && Headcount() == old(Headcount())
      ensures var picked := e.CountryRow? && e.row < |OwnedCountries(owned)|;
        ok <==> !(picked && old(ui).memberToAssign.Some? && old(ui).memberToAssign.value >= |old(gangMembers)|)
      ensures !ok ==> unchanged(this)
      ensures var rows := OwnedCountries(owned);
        ok && e.CountryRow? && e.row < |rows| && old(ui).memberToAssign.Some? ==>
          AssignMemberEffect(old(ui).memberToAssign.value, rows[e.row])
      ensures var picked := e.CountryRow? && e.row < |OwnedCountries(owned)|;
        && (!(picked && old(ui).memberToAssign.Some?) ==> GangSame() && businessIncome == old(businessIncome))
        && (ok ==> ui == (if picked || RegionOf(e) != CentredDialog
                          then old(ui).(assignMemberDialog := false, memberToAssign := None) else old(ui)))
    {
      ok := true;
      var rows := OwnedCountries(owned);
      if e.CountryRow? && e.row < |rows| {
        var chosen := ui.memberToAssign;
        if chosen.Some? && chosen.value >= |gangMembers| {
          return false;
        }
        if chosen.Some? {
          AssignMember(chosen.value, rows[e.row]);
        }
        ui := ui.(assignMemberDialog := false, memberToAssign := None);
      } else if RegionOf(e) != CentredDialog {
        ui := ui.(assignMemberDialog := false, memberToAssign := None);
      }
    }

    /** The bank dialog: an amount button raises the borrow confirmation for it; Cancel
        closes the dialog; Pay Debt repays (when possible) and closes it; a click outside
        closes it. */
    method OnBankDialog(e: Click)
      modifies this`ui, this`money, this`bankDebt, this`bankInterest
      requires Valid() && RouteOf(ui) == BankDialog
      ensures Valid()
      ensures e == PayDebt ==> RepayEffect()
      ensures e != PayDebt ==> BankSame()
      ensures ui == (if e.BorrowButton? then old(ui).(borrowAmount := e.amount, borrowConfirmActive := true)
                     else if e == BorrowCancel || e == PayDebt || RegionOf(e) != CentredDialog
                     then old(ui).(borrowMoneyDialog := false)
                     else old(ui))
      ensures e.BorrowButton? ==> RouteOf(ui) == BorrowConfirm
    {
      if e.BorrowButton? {
        ui := ui.(borrowAmount := e.amount, borrowConfirmActive := true);
      } else if e == BorrowCancel {
        ui := ui.(borrowMoneyDialog := false);
      } else if e == PayDebt {
        RepayDebt();
        ui := ui.(borrowMoneyDialog := false);
      } else if RegionOf(e) != CentredDialog {
        ui := ui.(borrowMoneyDialog := false);
      }
    }

    /** Unassign in the profile of member `index` of roster c: the member returns to the
        pool and the profile closes; no index, or one past the end of the roster, makes
        the pop fail (ok is false, nothing changes). */
    method UnassignFromProfile(c: Country, index: Option<nat>) returns (ok: bool)
      modifies this`ui, this`gangMembers, this`countryGangMembers, this`businessIncome
      requires Valid()
      ensures Valid()
      ensures Roster() == old(Roster()) && Headcount() == old(Headcount())
      ensures ok <==> index.Some? && index.value < |old(countryGangMembers).Get(c)|
      ensures !ok ==> unchanged(this)
      ensures ok ==> UnassignEffect(c, index.value) && ui == ProfileClosed(old(ui))
    {
      if index.None? || index.value >= |countryGangMembers.Get(c)| {
        return false;
      }
      UnassignMember(c, index.value);
      ui := ProfileClosed(ui);
      ok := true;
    }

    /** The profile dialog: Close closes it; Unassign, for a roster member, sends the
        member back to the pool and closes it (no index, or one past the end of the
        roster, makes the pop fail: ok is false, nothing changes); Sell, for a pool member,
        raises the sell confirmation for it over the still open profile. */
    method OnProfile(e: Click) returns (ok: bool)
      modifies this`ui, this`gangMembers, this`countryGangMembers, this`businessIncome
      requires Valid() && RouteOf(ui) == Profile
      ensures Valid()
      ensures Roster() == old(Roster()) && Headcount() == old(Headcount())
      ensures ok <==> !(e == UnassignButton && old(ui).profileMemberCountry.Some? &&
                        !(old(ui).profileMemberIndex.Some? &&
                          old(ui).profileMemberIndex.value < |old(countryGangMembers).Get(old(ui).profileMemberCountry.value)|))
      ensures !ok ==> unchanged(this)
      ensures ok && e == UnassignButton && old(ui).profileMemberCountry.Some? ==>
        UnassignEffect(old(ui).profileMemberCountry.value, old(ui).profileMemberIndex.value)
        && ui == ProfileClosed(old(ui))
      ensures !(e == UnassignButton && old(ui).profileMemberCountry.Some?) ==>
        GangSame() && businessIncome == old(businessIncome)
      ensures e == ProfileClose ==> ui == ProfileClosed(old(ui))
      ensures e == ProfileSellButton && old(ui).profileMemberCountry.None? ==>
        ui == old(ui).(memberToSell := old(ui).profileMemberIndex, sellGangConfirm := true) && RouteOf(ui) == SellConfirm
      ensures e != ProfileClose && e != UnassignButton && e != ProfileSellButton ==> ui == old(ui)
      ensures e == UnassignButton && old(ui).profileMemberCountry.None? ==> ui == old(ui)
      ensures e == ProfileSellButton && old(ui).profileMemberCountry.Some? ==> ui == old(ui)
    {
      ok := true;
      if e == ProfileClose {
        ui := ProfileClosed(ui);
      } else if e == UnassignButton && ui.profileMemberCountry.Some? {
        ok := UnassignFromProfile(ui.profileMemberCountry.value, ui.profileMemberIndex);
      } else if e == ProfileSellButton && ui.profileMemberCountry.None? {
        ui := ui.(memberToSell := ui.profileMemberIndex, sellGangConfirm := true);
      }
    }

    /** The relocate dialog: a row (an owned territory with no business) receives the
        chosen entry, and the dialog closes; a chosen index past the end of the list makes
        the lookup fail (ok is false, nothing changes); a click outside closes it. */
    method OnRelocate(e: Click) returns (ok: bool)
      modifies this`ui, this`countryBusiness, this`businessIncome, this`activeBusinesses
      requires Valid() && RouteOf(ui) == Route.RelocateBusiness
      ensures Valid()
      ensures var picked := e.CountryRow? && e.row < |FreeCountries(owned, old(countryBusiness))|;
        ok <==> !(picked && old(ui).businessToRelocate.Some? && old(ui).businessToRelocate.value >= |old(activeBusinesses)|)
      ensures !ok ==> unchanged(this)
      ensures var rows := FreeCountries(owned, old(countryBusiness));
        ok && e.CountryRow? && e.row < |rows| && old(ui).businessToRelocate.Some? ==>
          RelocateEffect(old(ui).businessToRelocate.value, rows[e.row])
      ensures var picked := e.CountryRow? && e.row < |FreeCountries(owned, old(countryBusiness))|;
        && (!(picked && old(ui).businessToRelocate.Some?) ==> BusinessSame())
        && (ok ==> ui == (if picked || RegionOf(e) != CentredDialog
                          then old(ui).(relocateBusinessDialog := false, businessToRelocate := None) else old(ui)))
    {
      ok := true;
      var rows := FreeCountries(owned, countryBusiness);
      if e.CountryRow? && e.row < |rows| {
        var chosen := ui.businessToRelocate;
        if chosen.Some? && chosen.value >= |activeBusinesses| {
          return false;
        }
        if chosen.Some? {
          RelocateBusiness(chosen.value, rows[e.row]);
        }
        ui := ui.(relocateBusinessDialog := false, businessToRelocate := None);
      } else if RegionOf(e) != CentredDialog {
        ui := ui.(relocateBusinessDialog := false, businessToRelocate := None);
      }
    }

    /** A click on the Members tab.  A profile opened from the list names a member where
        it is; the assign dialog and the sell confirmation open only for a pool member. */
    method OnMembersTab(e: Click)
      modifies this`ui
      requires RouteOf(ui) == GangPanelOpen && ui.currentGangTab == MembersTab
      ensures ui == MembersTabClick(old(ui), e, PoolRows(gangMembers) + RosterRows(countryGangMembers, Countries))
      ensures ui.profileDialog ==>
        && ui.profileMember.Some? && ui.profileMemberIndex.Some?
        && RowLocates(MemberRow(ui.profileMember.value, ui.profileMemberCountry, ui.profileMemberIndex.value),
                      gangMembers, countryGangMembers)
      ensures ui.assignMemberDialog ==> ui.memberToAssign.Some? && ui.memberToAssign.value < |gangMembers|
      ensures ui.sellGangConfirm ==> ui.memberToSell.Some? && ui.memberToSell.value < |gangMembers|
    {
      var rows := ListMembers();
      RowsLocateMembers(gangMembers, countryGangMembers, Countries);
      if (e.MemberName? || e.MemberProfile? || e.MemberAssign? || e.MemberSell?) && e.row < |rows| {
        var k := e.row;
        assert RowLocates(rows[k], gangMembers, countryGangMembers) by {
          if k >= |PoolRows(gangMembers)| {
            assert rows[k] == RosterRows(countryGangMembers, Countries)[k - |PoolRows(gangMembers)|];
          }
        }
      }
      ui := MembersTabClick(ui, e, rows);
    }

    /** A click on the Business tab.  The relocate dialog and the cancel confirmation open
        with the index of an existing entry, the kind dialog only when a territory is owned. */
    method OnBusinessTab(e: Click)
      modifies this`ui
      requires RouteOf(ui) == GangPanelOpen && ui.currentGangTab == BusinessTab
      ensures ui == BusinessTabClick(old(ui), e, |OwnedCountries(owned)| > 0, |activeBusinesses|)
      ensures ui.chooseBusinessDialog ==> exists c: Country :: owned.Get(c)
      ensures ui.relocateBusinessDialog ==> ui.businessToRelocate.Some? && ui.businessToRelocate.value < |activeBusinesses|
      ensures ui.cancelBusinessConfirm ==> ui.cancelBusinessIndex.Some? && ui.cancelBusinessIndex.value < |activeBusinesses|
    {
      var list := OwnedCountries(owned);
      if |list| > 0 {
        assert owned.Get(list[0]);
      }
      ui := BusinessTabClick(ui, e, |list| > 0, |activeBusinesses|);
    }

    /** The gang panel: Close closes it and returns to the Members tab; a tab button
        switches tab; otherwise the open tab takes the click.  The Location tab offers the
        change-location dialog; on the empty Vehicle and Diplomacy tabs a click outside
        the panel closes it. */
    method OnGangPanel(e: Click)
      modifies this`ui
      requires RouteOf(ui) == GangPanelOpen
      ensures e == GangClose ==> ui == old(ui).(gangPanelActive := false, currentGangTab := MembersTab)
      ensures e.TabButton? ==> ui == old(ui).(currentGangTab := e.tab)
      ensures e != GangClose && !e.TabButton? ==>
        ui == match old(ui).currentGangTab
              case MembersTab => MembersTabClick(old(ui), e, PoolRows(gangMembers) + RosterRows(countryGangMembers, Countries))
              case BusinessTab => BusinessTabClick(old(ui), e, |OwnedCountries(owned)| > 0, |activeBusinesses|)
              case LocationTab => if e == ChangeLocationButton then old(ui).(changeLocationDialog := true) else old(ui)
              case _ => if RegionOf(e) != GangPanel then old(ui).(gangPanelActive := false, currentGangTab := MembersTab) else old(ui)
    {
      if e == GangClose {
        ui := ui.(gangPanelActive := false, currentGangTab := MembersTab);
      } else if e.TabButton? {
        ui := ui.(currentGangTab := e.tab);
      } else if ui.currentGangTab == MembersTab {
        OnMembersTab(e);
      } else if ui.currentGangTab == BusinessTab {
        OnBusinessTab(e);
      } else if ui.currentGangTab == LocationTab {
        if e == ChangeLocationButton {
          ui := ui.(changeLocationDialog := true);
        }
      } else if RegionOf(e) != GangPanel {
        ui := ui.(gangPanelActive := false, currentGangTab := MembersTab);
      }
    }

    /** The territory panel: Close closes it; Buy, for a territory not yet owned, raises
        the purchase confirmation for it; a click outside the panel closes it. */
    method OnCountryPanel(e: Click)
      modifies this`ui
      requires RouteOf(ui) == CountryPanelOpen
      ensures ui == (if e == PanelClose then PanelClosed(old(ui))
                     else if e == PanelBuy && old(ui).panelCountry.Some? && !owned.Get(old(ui).panelCountry.value)
                     then old(ui).(confirmationActive := true, confirmationCountry := old(ui).panelCountry)
                     else if RegionOf(e) != InfoPanel then PanelClosed(old(ui))
                     else old(ui))
      ensures ui.confirmationActive ==> ui.confirmationCountry.Some? && !owned.Get(ui.confirmationCountry.value)
    {
      if e == PanelClose {
        ui := PanelClosed(ui);
      } else if e == PanelBuy && ui.panelCountry.Some? && !owned.Get(ui.panelCountry.value) {
        ui := ui.(confirmationActive := true, confirmationCountry := ui.panelCountry);
      } else if RegionOf(e) != InfoPanel {
        ui := PanelClosed(ui);
      }
    }

    /** No dialog or panel up: the Gang button opens the gang panel on the Members tab,
        the Bank button the bank dialog; any other click clears the selection and selects
        the first territory, in dictionary order, whose outline holds the point. */
    method OnMap(e: Click)
      modifies this`ui
      requires RouteOf(ui) == NoDialog
      ensures e == GangButton ==>
        ui == old(ui).(gangPanelActive := true, panelActive := false, panelCountry := None,
                       selectedCountry := None, currentGangTab := MembersTab)
      ensures e == BankButton ==> ui == old(ui).(borrowMoneyDialog := true, panelActive := false, gangPanelActive := false)
      ensures e != GangButton && e != BankButton ==>
        var hit := if e.Background? then TerritoryAt(e.at) else None;
        ui == old(ui).(selectedCountry := hit, panelActive := hit.Some?, panelCountry := hit)
      ensures ui.panelActive ==>
        e.Background? && ui.panelCountry.Some? && ui.selectedCountry == ui.panelCountry
        && Inside(e.at, Polygon(ui.panelCountry.value))
    {
      if e == GangButton {
        ui := ui.(gangPanelActive := true, panelActive := false, panelCountry := None,
                  selectedCountry := None, currentGangTab := MembersTab);
      } else if e == BankButton {
        ui := ui.(borrowMoneyDialog := true, panelActive := false, gangPanelActive := false);
      } else {
        ui := ui.(selectedCountry := None, panelActive := false, panelCountry := None);
        if e.Background? {
          var k := FirstContaining(e.at, Polygons());
          if k.Some? {
            var c := Countries[k.value];
            ui := ui.(selectedCountry := Some(c), panelActive := true, panelCountry := Some(c), gangPanelActive := false);
          }
        }
      }
    }

    /** One mouse click.  The pause button toggles the pause; while paused nothing else
        reacts; otherwise the click goes to the branch RouteOf picks.  ok is false where
        the game loop's list access fails, and then nothing but the pause flag has
        changed.  No click gives up a territory or breaks the bookkeeping invariant. */
    method HandleClick(e: Click) returns (ok: bool)
      modifies this`ui, this`paused, this`money, this`bankDebt, this`bankInterest, this`owned,
               this`firstPurchase, this`firstBoughtCountry, this`gangMembers, this`countryGangMembers,
               this`countryBusiness, this`activeBusinesses, this`businessIncome
      requires Valid()
      ensures Valid() && OwnershipKept()
      ensures paused == (if e == PauseButton then !old(paused) else old(paused))
      ensures paused ==> ok && ui == old(ui) && BooksSame()
      ensures !ok ==> ui == old(ui) && BooksSame()
    {
      ok := true;
      if e == PauseButton {
        paused := !paused;
      }
      if paused {
        return;
      }
      var rank := Rank(RouteOf(ui));
      if rank <= Rank(HireSecondConfirm) {
        OnPurchaseOrHire(e);
      } else if rank <= Rank(BorrowConfirm) {
        ok := OnSaleCancelOrBorrow(e);
      } else if rank <= Rank(Route.AssignBusiness) {
        OnBusinessOrLocation(e);
      } else if rank <= Rank(Route.RelocateBusiness) {
        ok := OnMemberBankOrRelocate(e);
      } else {
        OnPanelOrMap(e);
      }
    }

    /** The purchase and the two hiring confirmations. */
    method OnPurchaseOrHire(e: Click)
      modifies this`ui, this`money, this`owned, this`firstPurchase, this`firstBoughtCountry, this`gangMembers
      requires Valid() && Rank(RouteOf(ui)) <= Rank(HireSecondConfirm)
      ensures Valid() && OwnershipKept()
    {
      match RouteOf(ui)
      case PurchaseConfirm => OnPurchaseConfirm(e);
      case HireFirstConfirm => OnHireFirstConfirm(e);
      case HireSecondConfirm => OnHireSecondConfirm(e);
    }

    /** The sell, cancel and borrow confirmations. */
    method OnSaleCancelOrBorrow(e: Click) returns (ok: bool)
      modifies this`ui, this`money, this`bankDebt, this`gangMembers, this`countryBusiness,
               this`activeBusinesses, this`businessIncome
      requires Valid() && Rank(HireSecondConfirm) < Rank(RouteOf(ui)) <= Rank(BorrowConfirm)
      ensures Valid()
      ensures !ok ==> unchanged(this)
    {
      ok := true;
      match RouteOf(ui)
      case SellConfirm => ok := OnSellConfirm(e);
      case CancelConfirm => ok := OnCancelConfirm(e);
      case BorrowConfirm => OnBorrowConfirm(e);
    }

    /** The choose-business, change-location and assign-business dialogs. */
    method OnBusinessOrLocation(e: Click)
      modifies this`ui, this`money, this`firstBoughtCountry, this`countryBusiness,
               this`activeBusinesses, this`businessIncome
      requires Valid() && Rank(BorrowConfirm) < Rank(RouteOf(ui)) <= Rank(Route.AssignBusiness)
      ensures Valid()
    {
      match RouteOf(ui)
      case ChooseBusiness => OnChooseBusiness(e);
      case ChangeLocation => OnChangeLocation(e);
      case AssignBusiness => OnAssignBusiness(e);
    }

    /** The assign-member, bank, profile and relocate dialogs. */
    method OnMemberBankOrRelocate(e: Click) returns (ok: bool)
      modifies this`ui, this`money, this`bankDebt, this`bankInterest, this`gangMembers, this`countryGangMembers,
               this`countryBusiness, this`activeBusinesses, this`businessIncome
      requires Valid() && Rank(Route.AssignBusiness) < Rank(RouteOf(ui)) <= Rank(Route.RelocateBusiness)
      ensures Valid()
      ensures !ok ==> unchanged(this)
    {
      ok := true;
      match RouteOf(ui)
      case AssignMember => ok := OnAssignMember(e);
      case BankDialog => OnBankDialog(e);
      case Profile => ok := OnProfile(e);
      case RelocateBusiness => ok := OnRelocate(e);
    }

    /** The gang panel, the territory panel and the map. */
    method OnPanelOrMap(e: Click)
      modifies this`ui
      requires Rank(Route.RelocateBusiness) < Rank(RouteOf(ui))
      ensures BooksSame()
    {
      match RouteOf(ui)
      case GangPanelOpen => OnGangPanel(e);
      case CountryPanelOpen => OnCountryPanel(e);
      case NoDialog => OnMap(e);
    }
  }

  /** Every business_income is non-negative, so a pass of income never lowers money. */
  lemma IncomeNonNegative(owned: PerCountry<bool>, cb: PerCountry<Option<BusinessKind>>,
                          rosters: PerCountry<seq<Member>>, bi: PerCountry<int>)
    requires IncomeConsistent(cb, rosters, bi)
    ensures IncomeDue(owned, cb, bi, Countries) >= 0
  {
    IncomeDueNonNegative(owned, cb, bi, Countries);
  }

  /** Moving an entry to an owned territory keeps every entry on an owned territory. */
  lemma OwnedAfterMove(owned: PerCountry<bool>, ab: seq<Business>, j: nat, c: Country)
    requires BusinessesOwned(owned, ab) && j < |ab| && owned.Get(c)
    ensures BusinessesOwned(owned, ab[j := Business(ab[j].kind, c)])
  {
  }
}
