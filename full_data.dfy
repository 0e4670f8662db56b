/**
 * The constants of the full version: territory costs and polygons, fees, and the
 * abstract clicks the dialogs react to.
 */
module FullData {
  import opened Options
  import opened Geometry
  import opened Territory
  import opened Economy

  /** Purchase cost of each territory. */
  function Cost(c: Country): nat
  {
    match c
    case France => 150
    case Germany => 225
    case Spain => 120
    case Italy => 180
    case Poland => 105
  }

  const HireCost: real := 150.0
  const SellRefund: real := 90.0
  const BusinessFee: real := 500.0
  const CancelFee: real := 700.0
  /** DATE_UPDATE_INTERVAL: real seconds per in-game day. */
  const DateInterval: real := 5.0

  /** The amounts the bank dialog offers. */
  type LoanAmount = a: nat | a == 100 || a == 500 || a == 1000 || a == 5000 || a == 10000 witness 100

  /** The map outline of each territory. */
  function Polygon(c: Country): (poly: seq<Point>)
    ensures 0 < |poly|
  {
    match c
    case France =>
      [Point(180, 320), Point(185, 300), Point(195, 280), Point(210, 270), Point(230, 260), Point(250, 255), Point(270, 260),
       Point(290, 270), Point(310, 280), Point(320, 300), Point(325, 320), Point(320, 340), Point(310, 360), Point(290, 380),
       Point(270, 400), Point(250, 410), Point(230, 405), Point(210, 400), Point(190, 390), Point(180, 370), Point(175, 350),
       Point(175, 330), Point(180, 320)]
    case Germany =>
      [Point(340, 250), Point(350, 230), Point(360, 210), Point(380, 190), Point(400, 180), Point(420, 175), Point(440, 180),
       Point(460, 190), Point(470, 210), Point(465, 230), Point(460, 250), Point(450, 270), Point(440, 290), Point(420, 310),
       Point(400, 320), Point(380, 315), Point(360, 300), Point(350, 280), Point(340, 260), Point(340, 250)]
    case Spain =>
      [Point(140, 420), Point(150, 400), Point(160, 380), Point(170, 360), Point(190, 350), Point(210, 345), Point(230, 350),
       Point(250, 360), Point(270, 380), Point(280, 400), Point(275, 420), Point(260, 440), Point(240, 450), Point(220, 460),
       Point(200, 465), Point(180, 460), Point(160, 450), Point(145, 440), Point(140, 420)]
    case Italy =>
      [Point(310, 400), Point(320, 380), Point(330, 360), Point(340, 340), Point(350, 320), Point(360, 300), Point(380, 290),
       Point(400, 300), Point(410, 320), Point(405, 340), Point(400, 360), Point(390, 380), Point(380, 400), Point(370, 420),
       Point(360, 440), Point(350, 460), Point(340, 450), Point(330, 430), Point(320, 410), Point(310, 400)]
    case Poland =>
      [Point(440, 250), Point(450, 230), Point(460, 210), Point(480, 200), Point(500, 195), Point(520, 200), Point(540, 210),
       Point(550, 230), Point(555, 250), Point(550, 270), Point(540, 290), Point(520, 300), Point(500, 305), Point(480, 300),
       Point(460, 290), Point(450, 280), Point(440, 260), Point(440, 250)]
  }

  /** The polygons in dictionary order. */
  function Polygons(): (ps: seq<seq<Point>>)
    ensures |ps| == |Countries|
    ensures forall i :: 0 <= i < |ps| ==> ps[i] == Polygon(Countries[i]) && 0 < |ps[i]|
  {
    seq(|Countries|, i requires 0 <= i < |Countries| => Polygon(Countries[i]))
  }

  datatype Tab = MembersTab | BusinessTab | LocationTab | VehicleTab | DiplomacyTab

  /** The screen areas whose outside a click can fall in: the centred 400x200 dialog,
      the gang panel with its tab column, the territory panel, or none of them. */
  datatype Region = CentredDialog | GangPanel | InfoPanel | Open

  /** A mouse click, named by the control it lands on; Background is a click on no
      control, with its position and the area it falls in. */
  datatype Click =
    | PauseButton | GangButton | BankButton
    | Yes | No
    | KindButton(kind: BusinessKind)
    | CountryRow(row: nat)
    | BorrowButton(amount: LoanAmount) | BorrowCancel | PayDebt
    | ProfileClose | UnassignButton | ProfileSellButton
    | GangClose | TabButton(tab: Tab) | TabActionButton | ChangeLocationButton
    | MemberName(row: nat) | MemberProfile(row: nat) | MemberAssign(row: nat) | MemberSell(row: nat)
    | BusinessRelocate(row: nat) | BusinessCancel(row: nat)
    | PanelClose | PanelBuy
    | Background(at: Point, region: Region)

  /** The area each control is drawn in. */
  function RegionOf(e: Click): Region
  {
    match e
    case PauseButton => Open
    case GangButton => Open
    case BankButton => Open
    case GangClose => GangPanel
    case TabButton(_) => GangPanel
    case TabActionButton => GangPanel
    case ChangeLocationButton => GangPanel
    case MemberName(_) => GangPanel
    case MemberProfile(_) => GangPanel
    case MemberAssign(_) => GangPanel
    case MemberSell(_) => GangPanel
    case BusinessRelocate(_) => GangPanel
    case BusinessCancel(_) => GangPanel
    case PanelClose => InfoPanel
    case PanelBuy => InfoPanel
    case Background(_, r) => r
    case _ => CentredDialog
  }

  /** The dialog and panel flags of the game loop, with their payloads. */
  datatype Dialogs = Dialogs(
    confirmationActive: bool, confirmationCountry: Option<Country>,
    buyGangFirstConfirm: bool, buyGangSecondConfirm: bool,
    sellGangConfirm: bool, memberToSell: Option<nat>,
    cancelBusinessConfirm: bool, cancelBusinessIndex: Option<nat>,
    borrowConfirmActive: bool, borrowAmount: nat,
    chooseBusinessDialog: bool,
    changeLocationDialog: bool,
    assignBusinessDialog: bool, businessToAssign: Option<BusinessKind>,
    assignMemberDialog: bool, memberToAssign: Option<nat>,
    borrowMoneyDialog: bool,
    profileDialog: bool, profileMember: Option<Member>, profileMemberIndex: Option<nat>,
    profileMemberCountry: Option<Country>,
    relocateBusinessDialog: bool, businessToRelocate: Option<nat>,
    gangPanelActive: bool, currentGangTab: Tab,
    panelActive: bool, panelCountry: Option<Country>, selectedCountry: Option<Country>)

  /** Every flag down, as at start-up. */
  const AllClosed: Dialogs := Dialogs(
    false, None, false, false, false, None, false, None, false, 0, false, false,
    false, None, false, None, false, false, None, None, None, false, None,
    false, MembersTab, false, None, None)

  /** The branches of the click chain, in the order they are tested. */
  datatype Route =
    | PurchaseConfirm | HireFirstConfirm | HireSecondConfirm | SellConfirm | CancelConfirm
    | BorrowConfirm | ChooseBusiness | ChangeLocation | AssignBusiness | AssignMember
    | BankDialog | Profile | RelocateBusiness | GangPanelOpen | CountryPanelOpen | NoDialog

  /** The branch that handles a click: the first raised flag in chain order. */
  function RouteOf(d: Dialogs): Route
  {
    if d.confirmationActive then PurchaseConfirm
    else if d.buyGangFirstConfirm then HireFirstConfirm
    else if d.buyGangSecondConfirm then HireSecondConfirm
    else if d.sellGangConfirm then SellConfirm
    else if d.cancelBusinessConfirm then CancelConfirm
    else if d.borrowConfirmActive then BorrowConfirm
    else if d.chooseBusinessDialog then ChooseBusiness
    else if d.changeLocationDialog then ChangeLocation
    else if d.assignBusinessDialog then AssignBusiness
    else if d.assignMemberDialog then AssignMember
    else if d.borrowMoneyDialog then BankDialog
    else if d.profileDialog then Profile
    else if d.relocateBusinessDialog then RelocateBusiness
    else if d.gangPanelActive then GangPanelOpen
    else if d.panelActive then CountryPanelOpen
    else NoDialog
  }

  /** The flag that selects each branch (the last branch has none). */
  function Raised(d: Dialogs, r: Route): bool
  {
    match r
    case PurchaseConfirm => d.confirmationActive
    case HireFirstConfirm => d.buyGangFirstConfirm
    case HireSecondConfirm => d.buyGangSecondConfirm
    case SellConfirm => d.sellGangConfirm
    case CancelConfirm => d.cancelBusinessConfirm
    case BorrowConfirm => d.borrowConfirmActive
    case ChooseBusiness => d.chooseBusinessDialog
    case ChangeLocation => d.changeLocationDialog
    case AssignBusiness => d.assignBusinessDialog
    case AssignMember => d.assignMemberDialog
    case BankDialog => d.borrowMoneyDialog
    case Profile => d.profileDialog
    case RelocateBusiness => d.relocateBusinessDialog
    case GangPanelOpen => d.gangPanelActive
    case CountryPanelOpen => d.panelActive
    case NoDialog => true
  }

  /** The position of each branch in the chain. */
  function Rank(r: Route): nat
  {
    match r
    case PurchaseConfirm => 0
    case HireFirstConfirm => 1
    case HireSecondConfirm => 2
    case SellConfirm => 3
    case CancelConfirm => 4
    case BorrowConfirm => 5
    case ChooseBusiness => 6
    case ChangeLocation => 7
    case AssignBusiness => 8
    case AssignMember => 9
    case BankDialog => 10
    case Profile => 11
    case RelocateBusiness => 12
    case GangPanelOpen => 13
    case CountryPanelOpen => 14
    case NoDialog => 15
  }

  /** A raised flag takes the click unless a flag earlier in the chain is raised too. */
  lemma RaisedFlagBoundsRoute(d: Dialogs, r: Route)
    requires Raised(d, r)
    ensures Rank(RouteOf(d)) <= Rank(r)
  {
    match r
    case PurchaseConfirm =>
    case HireFirstConfirm =>
    case HireSecondConfirm =>
    case SellConfirm =>
    case CancelConfirm =>
    case BorrowConfirm =>
    case ChooseBusiness =>
    case ChangeLocation =>
    case AssignBusiness =>
    case AssignMember =>
    case BankDialog =>
    case Profile =>
    case RelocateBusiness =>
    case GangPanelOpen =>
    case CountryPanelOpen =>
    case NoDialog =>
  }

  /** Several flags may be up at once; the click goes to the raised flag of lowest rank. */
  lemma FirstRaisedFlagWins(d: Dialogs)
    ensures Raised(d, RouteOf(d))
    ensures forall r :: Rank(r) < Rank(RouteOf(d)) ==> !Raised(d, r)
  {
    forall r | Rank(r) < Rank(RouteOf(d)) ensures !Raised(d, r) {
      if Raised(d, r) {
        RaisedFlagBoundsRoute(d, r);
      }
    }
  }

  /** The click reaches the map only when no flag is up. */
  lemma MapOnlyWhenNoFlag(d: Dialogs)
    ensures RouteOf(d) == NoDialog <==> forall r :: r != NoDialog ==> !Raised(d, r)
  {
    var route := RouteOf(d);
    if route == NoDialog {
      FirstRaisedFlagWins(d);
      forall r | r != NoDialog ensures !Raised(d, r) {
        assert Rank(r) < Rank(route);
      }
    } else {
      assert Raised(d, route);
    }
  }

  /** The bank dialog stays up under the borrow confirmation, the profile under the
      sell confirmation; the confirmation gets the click. */
  lemma ConfirmationsShadowTheirDialogs(d: Dialogs)
    ensures d.borrowConfirmActive && d.borrowMoneyDialog ==> Rank(RouteOf(d)) <= Rank(BorrowConfirm)
    ensures d.sellGangConfirm && d.profileDialog ==> Rank(RouteOf(d)) <= Rank(SellConfirm)
  {
  }

  /** The territory a map click selects: the first, in dictionary order, whose outline
      holds the point, if any. */
  function TerritoryAt(p: Point): (r: Option<Country>)
    ensures r.Some? ==> Inside(p, Polygon(r.value))
    ensures r.Some? ==> forall i :: 0 <= i < Index(r.value) ==> !Inside(p, Polygon(Countries[i]))
    ensures r.None? ==> forall c: Country :: !Inside(p, Polygon(c))
  {
    match FirstInside(p, Polygons())
    case Some(i) =>
      assert Index(Countries[i]) == i;
      Some(Countries[i])
    case None =>
      assert forall c: Country :: Polygons()[Index(c)] == Polygon(c);
      None
  }

  /** The profile dialog closed, its member forgotten. */
  function ProfileClosed(d: Dialogs): Dialogs
  {
    d.(profileDialog := false, profileMember := None, profileMemberIndex := None, profileMemberCountry := None)
  }

  /** The territory panel closed and the selection cleared. */
  function PanelClosed(d: Dialogs): Dialogs
  {
    d.(panelActive := false, panelCountry := None, selectedCountry := None)
  }

  /** A click on the Members tab, given its rows: the hire button raises the first hiring
      confirmation; a name or profile button opens that row's profile; the assign and
      sell buttons of a pool row open the assign dialog or the sell confirmation for it. */
  function MembersTabClick(d: Dialogs, e: Click, rows: seq<MemberRow>): Dialogs
  {
    if e == TabActionButton then d.(buyGangFirstConfirm := true)
    else if (e.MemberName? || e.MemberProfile?) && e.row < |rows| then
      d.(profileDialog := true, profileMember := Some(rows[e.row].member),
         profileMemberIndex := Some(rows[e.row].index), profileMemberCountry := rows[e.row].country)
    else if e.MemberAssign? && e.row < |rows| && rows[e.row].country.None? then
      d.(assignMemberDialog := true, memberToAssign := Some(rows[e.row].index))
    else if e.MemberSell? && e.row < |rows| && rows[e.row].country.None? then
      d.(sellGangConfirm := true, memberToSell := Some(rows[e.row].index))
    else d
  }

  /** A click on the Business tab: the start button opens the kind dialog when some
      territory is owned; a row's relocate or cancel button opens that dialog for entry row. */
  function BusinessTabClick(d: Dialogs, e: Click, ownsSome: bool, entries: nat): Dialogs
  {
    if e == TabActionButton && ownsSome then d.(chooseBusinessDialog := true)
    else if e.BusinessRelocate? && e.row < entries then
      d.(relocateBusinessDialog := true, businessToRelocate := Some(e.row))
    else if e.BusinessCancel? && e.row < entries then
      d.(cancelBusinessConfirm := true, cancelBusinessIndex := Some(e.row))
    else d
  }
}
