/**
 * The second, simple version of the game: five territories with a price and a tax,
 * 100 starting money, a click that selects the territory under the cursor and buys
 * it when it is free and affordable, and a once-a-second tax collection.  The wall
 * clock is the parameter `now`.
 */
module SimpleGame {
  import opened Options
  import opened Geometry
  import opened Territory

  /** Tax income per second of each territory. */
  function Tax(c: Country): nat
  {
    match c
    case France => 10
    case Germany => 15
    case Spain => 8
    case Italy => 12
    case Poland => 7
  }

  /** Purchase price of each territory. */
  function Price(c: Country): nat
  {
    match c
    case France => 100
    case Germany => 150
    case Spain => 80
    case Italy => 120
    case Poland => 70
  }

  /** The map outline of each territory in this version. */
  function Outline(c: Country): (poly: seq<Point>)
    ensures 0 < |poly|
  {
    match c
    case France =>
      [Point(200, 300), Point(250, 250), Point(300, 250), Point(320, 300),
       Point(300, 350), Point(250, 400), Point(200, 350), Point(180, 320)]
    case Germany =>
      [Point(350, 200), Point(400, 150), Point(450, 150), Point(470, 200),
       Point(450, 250), Point(420, 300), Point(380, 300), Point(340, 250)]
    case Spain =>
      [Point(150, 400), Point(200, 350), Point(250, 350), Point(270, 400),
       Point(250, 450), Point(200, 450), Point(150, 420)]
    case Italy =>
      [Point(320, 350), Point(350, 300), Point(380, 300), Point(400, 350),
       Point(380, 400), Point(350, 450), Point(320, 400)]
    case Poland =>
      [Point(450, 200), Point(500, 150), Point(550, 150), Point(570, 200),
       Point(550, 250), Point(500, 300), Point(450, 250)]
  }

  /** The outlines in dictionary order. */
  function Outlines(): (ps: seq<seq<Point>>)
    ensures |ps| == |Countries|
    ensures forall i :: 0 <= i < |ps| ==> ps[i] == Outline(Countries[i]) && 0 < |ps[i]|
  {
    seq(|Countries|, i requires 0 <= i < |Countries| => Outline(Countries[i]))
  }

  /** The territory a click selects: the first, in dictionary order, whose outline holds
      the point; none when no outline holds it. */
  function SelectedAt(p: Point): (r: Option<Country>)
    ensures r.Some? ==> Inside(p, Outline(r.value))
    ensures r.Some? ==> forall i :: 0 <= i < Index(r.value) ==> !Inside(p, Outline(Countries[i]))
    ensures r.None? ==> forall c: Country :: !Inside(p, Outline(c))
  {
    match FirstInside(p, Outlines())
    case Some(i) =>
      assert Index(Countries[i]) == i;
      Some(Countries[i])
    case None =>
      assert forall c: Country :: Outlines()[Index(c)] == Outline(c);
      None
  }

  /** The tax of the owned territories among cs. */
  function TaxDue(owned: PerCountry<bool>, cs: seq<Country>): nat
  {
    if cs == [] then 0
    else TaxDue(owned, cs[..|cs| - 1]) + (if owned.Get(cs[|cs| - 1]) then Tax(cs[|cs| - 1]) else 0)
  }

  /** Owning more never lowers the tax. */
  lemma {:induction false} TaxDueMonotone(less: PerCountry<bool>, more: PerCountry<bool>, cs: seq<Country>)
    requires forall c: Country :: less.Get(c) ==> more.Get(c)
    ensures TaxDue(less, cs) <= TaxDue(more, cs)
  {
    if cs != [] {
      TaxDueMonotone(less, more, cs[..|cs| - 1]);
    }
  }

  /** Buying a territory adds exactly its tax to the income, once, when the territories
      are listed without repetition. */
  lemma {:induction false} TaxDueAfterPurchase(owned: PerCountry<bool>, c: Country, cs: seq<Country>)
    requires !owned.Get(c)
    requires forall i, j :: 0 <= i < j < |cs| ==> cs[i] != cs[j]
    ensures TaxDue(owned.Set(c, true), cs) == TaxDue(owned, cs) + (if c in cs then Tax(c) else 0)
  {
    if cs != [] {
      var init, last := cs[..|cs| - 1], cs[|cs| - 1];
      assert forall i, j :: 0 <= i < j < |init| ==> init[i] != init[j] by {
        forall i, j | 0 <= i < j < |init| ensures init[i] != init[j] {
          assert init[i] == cs[i] && init[j] == cs[j];
        }
      }
      TaxDueAfterPurchase(owned, c, init);
      assert cs == init + [last];
      if last == c {
        assert c !in init by {
          forall i | 0 <= i < |init| ensures init[i] != c {
            assert init[i] == cs[i];
          }
        }
      } else {
        assert c in cs <==> c in init;
      }
    }
  }

  /** With everything owned the tax is 52 a second; nothing can collect more. */
  lemma TaxDueAtMost52(owned: PerCountry<bool>)
    ensures TaxDue(owned, Countries) <= 52
  {
    TaxDueMonotone(owned, Fill(true), Countries);
    var all := Fill(true);
    var fs := [France];
    assert fs[..0] == [];
    assert TaxDue(all, fs) == 10;
    var fg := [France, Germany];
    assert fg[..1] == fs;
    var fgs := [France, Germany, Spain];
    assert fgs[..2] == fg;
    var fgsi := [France, Germany, Spain, Italy];
    assert fgsi[..3] == fgs;
    assert Countries[..4] == fgsi;
  }

  class SimpleState {
    var money: int
    var owned: PerCountry<bool>
    var lastTaxTime: real
    var selected: Option<Country>

    /** Money never goes below zero. */
    ghost predicate Valid()
      reads this`money
    {
      money >= 0
    }

    constructor (start: real)
      ensures Valid()
      ensures money == 100 && lastTaxTime == start && selected == None
      ensures forall c: Country :: !owned.Get(c)
    {
      money := 100;
      owned := Fill(false);
      lastTaxTime := start;
      selected := None;
    }

    /** A mouse click: the selection becomes the territory under the cursor, or none;
        a selected territory not yet owned is bought when money covers its price, and
        otherwise money and ownership stay as they were. */
    method Click(p: Point)
      modifies this`money, this`owned, this`selected
      requires Valid()
      ensures Valid()
      ensures selected == SelectedAt(p)
      ensures var bought := selected.Some? && !old(owned).Get(selected.value) && old(money) >= Price(selected.value) as int;
        && (bought ==> money == old(money) - Price(selected.value) && owned == old(owned).Set(selected.value, true))
        && (!bought ==> money == old(money) && owned == old(owned))
      ensures forall c: Country :: old(owned).Get(c) ==> owned.Get(c)
    {
      selected := None;
      var k := FirstContaining(p, Outlines());
      if k.Some? {
        var c := Countries[k.value];
        selected := Some(c);
        if !owned.Get(c) {
          if money >= Price(c) {
            money := money - Price(c);
            owned := owned.Set(c, true);
          }
        }
      }
    }

    /** Once a frame: when a second or more has passed, the tax of every owned territory
        is collected once, however long it has been, and the clock restarts at now. */
    method TaxTick(now: real)
      modifies this`money, this`lastTaxTime
      requires Valid()
      ensures Valid() && money >= old(money)
      ensures now - old(lastTaxTime) >= 1.0 ==> money == old(money) + TaxDue(owned, Countries) && lastTaxTime == now
      ensures now - old(lastTaxTime) < 1.0 ==> money == old(money) && lastTaxTime == old(lastTaxTime)
    {
      if now - lastTaxTime >= 1.0 {
        money := money + TaxDue(owned, Countries);
        lastTaxTime := now;
      }
    }
  }
}
