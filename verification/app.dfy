/**
 * The page component's state and event handlers. The fields are the component's
 * state slots plus the address bar's fragment (`window.location.hash`); each public
 * method is one event: the handler's writes, then the render that follows them
 * (the outbound effect and, if it wrote the fragment, the `hashchange` re-sync).
 */
module Application {
  import opened Wrappers
  import opened CatalogData
  import opened HashRouter
  import opened OrderForm
  import opened SendTelegram

  /** The toast shown after a submission. */
  datatype Notice = Notice(open: bool, title: string, description: string)

  const ClosedNotice := Notice(false, "", "")
  const SentNotice := Notice(true, "ЗАЯВКА ОТПРАВЛЕНА", "Менеджер свяжется с вами")
  const FailedNotice := Notice(true, "ОШИБКА", "Не удалось отправить. Проверьте интернет или токен.")

  const InitialNav := NavState(Home, NoSelection, None)

  class App {
    const tables: Tables

    var route: Route
    var selectedGas: Option<Entity>
    var selectedEquipment: Option<Entity>
    var selectedSolution: Option<Entity>
    var selectedService: Option<Entity>
    var selectedVariant: Option<string>

    var openMenu: Option<string>
    var mobileNavOpen: bool

    var cylinder: Option<nat>
    var ownership: Option<string>
    var delivery: Option<string>
    var phone: string
    var region: string
    var comment: string

    var notice: Notice

    var hash: string

    /** The routing state as the pure router sees it. */
    function Nav(): NavState
      reads this`route, this`selectedGas, this`selectedSolution, this`selectedService, this`selectedEquipment,
        this`selectedVariant
    {
      NavState(route, Selection(selectedGas, selectedSolution, selectedService, selectedEquipment), selectedVariant)
    }

    /** The order draft. */
    function Form(): Draft
      reads this`cylinder, this`ownership, this`delivery, this`phone, this`region, this`comment
    {
      Draft(cylinder, ownership, delivery, phone, region, comment)
    }

    /** The invariant kept between events. */
    predicate Valid()
      reads this
    {
      Coherent(tables, hash, Nav())
    }

    /** The state slots' initial values; `initialHash` is the fragment the page was opened with. */
    constructor (t: Tables, initialHash: string)
      requires t.equipment == EQUIPMENT && t.services == SERVICES
      ensures tables == t && hash == initialHash
      ensures Nav() == InitialNav && Form() == InitialDraft
      ensures notice == ClosedNotice && openMenu == None && !mobileNavOpen
    {
      tables := t;
      route := Home;
      selectedGas, selectedEquipment, selectedSolution, selectedService := None, None, None, None;
      selectedVariant := None;
      openMenu, mobileNavOpen := None, false;
      cylinder, ownership, delivery := None, None, None;
      phone, region, comment := "", DEFAULT_REGION, "";
      notice := ClosedNotice;
      hash := initialHash;
    }

    /** `syncFromHash`: read the fragment and set the route and the slots; the variant is never touched. */
    method SyncFromHash()
      modifies this`route, this`selectedGas, this`selectedSolution, this`selectedService, this`selectedEquipment
      ensures Nav() == HashRouter.SyncFromHash(tables, hash, old(Nav()))
    {
      var (path, id) := ParseHash(hash);
      var r := RouteOfToken(path);
      if r.Some? && r.value.IsList() {
        route := r.value;
        selectedGas := None;
        selectedSolution := None;
        selectedService := None;
        selectedEquipment := None;
      } else if r == Some(Order) {
        route := Order;
      } else if r == Some(GasDetails) {
        selectedGas := Find(tables.gases, id);
        selectedSolution := None;
        selectedService := None;
        selectedEquipment := None;
        route := GasDetails;
      } else if r == Some(SolutionDetails) {
        selectedSolution := Find(tables.solutions, id);
        selectedGas := None;
        selectedService := None;
        selectedEquipment := None;
        route := SolutionDetails;
      } else if r == Some(EquipmentDetails) {
        selectedEquipment := Find(tables.equipment, id);
        selectedGas := None;
        selectedSolution := None;
        selectedService := None;
        route := EquipmentDetails;
      } else if r == Some(ServiceDetails) {
        selectedService := Find(tables.services, id);
        selectedGas := None;
        selectedSolution := None;
        selectedEquipment := None;
        route := ServiceDetails;
      } else {
        route := Home;
        selectedGas := None;
        selectedSolution := None;
        selectedService := None;
        selectedEquipment := None;
      }
    }

    /** The outbound effect's body: write the canonical fragment, only when it differs; `changed` is whether `hashchange` fires. */
    method WriteHash() returns (changed: bool)
      modifies this`hash
      ensures hash == Fragment(Nav())
      ensures changed <==> old(hash) != Fragment(Nav())
    {
      var newHash := Fragment(Nav());
      changed := hash != newHash;
      if changed {
        hash := newHash;
      }
    }

    /** The handler's state writes (`setSelectedX`, `setSelectedVariant`, `setRoute`) as one step. */
    method SetNav(n: NavState)
      modifies this`route, this`selectedGas, this`selectedSolution, this`selectedService, this`selectedEquipment,
        this`selectedVariant
      ensures Nav() == n
    {
      selectedGas := n.sel.gas;
      selectedSolution := n.sel.solution;
      selectedService := n.sel.service;
      selectedEquipment := n.sel.equipment;
      selectedVariant := n.variant;
      route := n.route;
    }

    /** The render after a handler: the effect runs when a watched value changed since `before`. */
    method Render(before: Deps)
      requires ReadyToRender(tables, before, hash, Nav())
      modifies this`route, this`selectedGas, this`selectedSolution, this`selectedService, this`selectedEquipment,
        this`hash
      ensures Valid()
      ensures Page(hash, Nav()) == HashRouter.Render(tables, before, old(hash), old(Nav()))
    {
      RenderIsCoherent(tables, before, hash, Nav());
      if DepsOf(Nav()) != before {
        var watched := DepsOf(Nav());
        var changed := WriteHash();
        if changed {
          SyncFromHash();
          if DepsOf(Nav()) != watched {
            changed := WriteHash();
            if changed {
              SyncFromHash();
            }
          }
        }
      }
    }

    /**
     * `syncFromHash` followed by the render: the mount effect runs it once on the fragment
     * the page was opened with, and the `hashchange` listener on every later change. Any
     * state with at most one selection is accepted; the invariant holds afterwards.
     */
    method SyncAndRender()
      requires AtMostOne(Nav().sel)
      modifies this`route, this`selectedGas, this`selectedSolution, this`selectedService, this`selectedEquipment, this`hash
      ensures Valid()
      ensures Page(hash, Nav()) ==
                HashRouter.Render(tables, DepsOf(old(Nav())), old(hash), HashRouter.SyncFromHash(tables, old(hash), old(Nav())))
    {
      ghost var cur := Nav();
      var before := DepsOf(Nav());
      SyncFromHash();
      SyncIsCoherent(tables, hash, cur);
      Render(before);
    }

    /** The browser's `hashchange` (back, forward, an edited address). */
    method HashChanged(newHash: string)
      requires Valid()
      modifies this`route, this`selectedGas, this`selectedSolution, this`selectedService, this`selectedEquipment, this`hash
      ensures Valid()
      ensures Page(hash, Nav()) ==
                HashRouter.Render(tables, DepsOf(old(Nav())), newHash, HashRouter.SyncFromHash(tables, newHash, old(Nav())))
    {
      hash := newHash;
      SyncAndRender();
    }

    /** `setRoute(r)` from a link or button; on a list page the render's re-sync clears every selection. */
    method Navigate(r: Route)
      requires Valid()
      modifies this`route, this`selectedGas, this`selectedSolution, this`selectedService, this`selectedEquipment, this`hash
      ensures Valid()
      ensures Page(hash, Nav()) == HashRouter.Render(tables, DepsOf(old(Nav())), old(hash), old(Nav()).(route := r))
      ensures r.IsList() ==> Nav() == NavState(r, NoSelection, old(selectedVariant))
    {
      var before := DepsOf(Nav());
      SetRouteIsReady(tables, hash, Nav(), r);
      if r.IsList() {
        NavigateToListClears(tables, hash, Nav(), r);
      }
      route := r;
      Render(before);
    }

    /** The body shared by the four `open*Page` handlers: select `e` in slot `k`, go to its details page, close the menus. */
    method OpenPage(k: Kind, e: Entity, variantLabel: Option<string>)
      requires Valid()
      modifies this`route, this`selectedGas, this`selectedSolution, this`selectedService, this`selectedEquipment,
        this`selectedVariant, this`hash, this`openMenu, this`mobileNavOpen
      ensures Valid()
      ensures Page(hash, Nav()) == HashRouter.Render(tables, DepsOf(old(Nav())), old(hash), OpenDetails(k, e, variantLabel))
      ensures openMenu == None && !mobileNavOpen
    {
      ghost var cur := Nav();
      var before := DepsOf(Nav());
      var next := OpenDetails(k, e, variantLabel);
      SetNav(next);
      openMenu := None;
      mobileNavOpen := false;
      HandlerIsReady(tables, hash, cur, next);
      Render(before);
    }

    /** `openGasPage`. */
    method OpenGasPage(g: Entity)
      requires Valid()
      modifies this`route, this`selectedGas, this`selectedSolution, this`selectedService, this`selectedEquipment,
        this`selectedVariant, this`hash, this`openMenu, this`mobileNavOpen
      ensures Valid()
      ensures Page(hash, Nav()) == HashRouter.Render(tables, DepsOf(old(Nav())), old(hash), OpenDetails(GasKind, g, None))
      ensures openMenu == None && !mobileNavOpen
    {
      OpenPage(GasKind, g, None);
    }

    /** `openSolutionPage`: the variant label is kept only here. */
    method OpenSolutionPage(s: Entity, variantLabel: Option<string>)
      requires Valid()
      modifies this`route, this`selectedGas, this`selectedSolution, this`selectedService, this`selectedEquipment,
        this`selectedVariant, this`hash, this`openMenu, this`mobileNavOpen
      ensures Valid()
      ensures Page(hash, Nav()) == HashRouter.Render(tables, DepsOf(old(Nav())), old(hash), OpenDetails(SolutionKind, s, variantLabel))
      ensures openMenu == None && !mobileNavOpen
    {
      OpenPage(SolutionKind, s, variantLabel);
    }

    /** `openServicePage`. */
    method OpenServicePage(s: Entity)
      requires Valid()
      modifies this`route, this`selectedGas, this`selectedSolution, this`selectedService, this`selectedEquipment,
        this`selectedVariant, this`hash, this`openMenu, this`mobileNavOpen
      ensures Valid()
      ensures Page(hash, Nav()) == HashRouter.Render(tables, DepsOf(old(Nav())), old(hash), OpenDetails(ServiceKind, s, None))
      ensures openMenu == None && !mobileNavOpen
    {
      OpenPage(ServiceKind, s, None);
    }

    /** `openEquipmentPage`. */
    method OpenEquipmentPage(e: Entity)
      requires Valid()
      modifies this`route, this`selectedGas, this`selectedSolution, this`selectedService, this`selectedEquipment,
        this`selectedVariant, this`hash, this`openMenu, this`mobileNavOpen
      ensures Valid()
      ensures Page(hash, Nav()) == HashRouter.Render(tables, DepsOf(old(Nav())), old(hash), OpenDetails(EquipmentKind, e, None))
      ensures openMenu == None && !mobileNavOpen
    {
      OpenPage(EquipmentKind, e, None);
    }

    /** `resetOrder`: clear the draft, keeping the region. */
    method ResetOrder()
      modifies this`cylinder, this`ownership, this`delivery, this`phone, this`comment
      ensures cylinder == None && ownership == None && delivery == None && phone == "" && comment == ""
      ensures Form() == ResetDraft(old(Form()))
    {
      cylinder := None;
      ownership := None;
      delivery := None;
      phone := "";
      comment := "";
    }

    /** The navigation part shared by the two `startOrder*` handlers: select `item` in slot `k`, go to the order page, close the menus. */
    method BeginOrder(k: Kind, item: Entity, variantLabel: Option<string>)
      requires Valid()
      modifies this`route, this`selectedGas, this`selectedSolution, this`selectedService, this`selectedEquipment,
        this`selectedVariant, this`hash, this`openMenu, this`mobileNavOpen
      ensures Valid()
      ensures Page(hash, Nav()) == HashRouter.Render(tables, DepsOf(old(Nav())), old(hash), StartOrder(k, item, variantLabel))
      ensures openMenu == None && !mobileNavOpen
    {
      ghost var cur := Nav();
      var before := DepsOf(Nav());
      var next := StartOrder(k, item, variantLabel);
      SetNav(next);
      openMenu := None;
      mobileNavOpen := false;
      HandlerIsReady(tables, hash, cur, next);
      Render(before);
    }

    /** `startOrderFromGas`: the gas and its variant, a fresh draft, the order page. */
    method StartOrderFromGas(g: Entity, variantLabel: Option<string>)
      requires Valid()
      modifies this`route, this`selectedGas, this`selectedSolution, this`selectedService, this`selectedEquipment,
        this`selectedVariant, this`hash, this`openMenu, this`mobileNavOpen,
        this`cylinder, this`ownership, this`delivery, this`phone, this`comment
      ensures Valid()
      ensures Nav() == StartOrder(GasKind, g, variantLabel)
      ensures Page(hash, Nav()) == HashRouter.Render(tables, DepsOf(old(Nav())), old(hash), StartOrder(GasKind, g, variantLabel))
      ensures Form() == ResetDraft(old(Form()))
      ensures openMenu == None && !mobileNavOpen
    {
      StartOrderSettles(tables, DepsOf(Nav()), hash, GasKind, g, variantLabel);
      ResetOrder();
      BeginOrder(GasKind, g, variantLabel);
    }

    /** `startOrderFromSolution`: the item lands in the first of the solution, service and equipment tables that holds its id, else in the solution slot. */
    method StartOrderFromSolution(item: Entity, variantLabel: Option<string>)
      requires Valid()
      modifies this`route, this`selectedGas, this`selectedSolution, this`selectedService, this`selectedEquipment,
        this`selectedVariant, this`hash, this`openMenu, this`mobileNavOpen,
        this`cylinder, this`ownership, this`delivery, this`phone, this`comment
      ensures Valid()
      ensures Nav() == StartOrder(ClassifyOrderItem(tables, item), item, variantLabel)
      ensures Page(hash, Nav()) ==
                HashRouter.Render(tables, DepsOf(old(Nav())), old(hash), StartOrder(ClassifyOrderItem(tables, item), item, variantLabel))
      ensures Form() == ResetDraft(old(Form()))
      ensures openMenu == None && !mobileNavOpen
    {
      var k := ClassifyOrderItem(tables, item);
      StartOrderSettles(tables, DepsOf(Nav()), hash, k, item, variantLabel);
      ResetOrder();
      BeginOrder(k, item, variantLabel);
    }

    /**
     * `submitOrder`: build the payload and its text, post it (the reply is an input, `None`
     * when the request threw), open the notice, and on success go home. The draft is kept
     * either way.
     */
    method SubmitOrder(reply: Option<Response>, timestamp: string) returns (text: string)
      requires Valid()
      modifies this`route, this`selectedGas, this`selectedSolution, this`selectedService, this`selectedEquipment, this`hash, this`notice
      ensures Valid()
      ensures text == OrderText(MakePayload(old(Nav()).sel, old(selectedVariant), old(Form()), timestamp), timestamp)
      ensures notice == if SendSucceeded(reply) then SentNotice else FailedNotice
      ensures SendSucceeded(reply) ==>
                Page(hash, Nav()) == HashRouter.Render(tables, DepsOf(old(Nav())), old(hash), old(Nav()).(route := Home))
      ensures SendSucceeded(reply) ==> Nav() == NavState(Home, NoSelection, old(selectedVariant))
      ensures !SendSucceeded(reply) ==> Nav() == old(Nav()) && hash == old(hash)
    {
      var payload := MakePayload(Nav().sel, selectedVariant, Form(), timestamp);
      text := OrderText(payload, timestamp);
      var ok := SendSucceeded(reply);
      notice := if ok then SentNotice else FailedNotice;
      if ok {
        var before := DepsOf(Nav());
        SetRouteIsReady(tables, hash, Nav(), Home);
        NavigateToListClears(tables, hash, Nav(), Home);
        route := Home;
        Render(before);
      }
    }

    /** The callback the submission schedules 4500 ms later: close the notice. */
    method DismissNotice()
      modifies this`notice
      ensures notice == ClosedNotice && !notice.open
    {
      notice := ClosedNotice;
    }
  }
}
