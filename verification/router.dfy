/**
 * The hash router: the current view (`route`), the four mutually exclusive selection
 * slots and the selected variant, kept in step with the address bar's fragment in both
 * directions. Everything here is a pure function of the state; the `App` class applies them.
 */
module HashRouter {
  import opened Wrappers
  import opened Strings
  import opened CatalogData

  datatype Route =
    | Home | Catalog | Gases | Solutions | Equipment | Services | Contacts
    | Order
    | GasDetails | SolutionDetails | EquipmentDetails | ServiceDetails
  {
    /** The list and content pages that carry no selection. */
    predicate IsList()
    {
      Home? || Catalog? || Gases? || Solutions? || Equipment? || Services? || Contacts?
    }

    predicate IsDetail()
    {
      GasDetails? || SolutionDetails? || EquipmentDetails? || ServiceDetails?
    }
  }

  /** The token a route is written as in the fragment. */
  function Token(r: Route): (tok: string)
    ensures '/' !in tok && tok != ""
  {
    match r
    case Home => "home"
    case Catalog => "catalog"
    case Gases => "gases"
    case Solutions => "solutions"
    case Equipment => "equipment"
    case Services => "services"
    case Contacts => "contacts"
    case Order => "order"
    case GasDetails => "gas-details"
    case SolutionDetails => "solution-details"
    case EquipmentDetails => "equipment-details"
    case ServiceDetails => "service-details"
  }

  /** The route a path token names, if any: the cases of the `switch` in `syncFromHash`. */
  function RouteOfToken(tok: string): (r: Option<Route>)
    ensures r.Some? ==> Token(r.value) == tok
    ensures r.None? <==> forall r' :: Token(r') != tok
  {
    if tok == "home" then Some(Home)
    else if tok == "catalog" then Some(Catalog)
    else if tok == "gases" then Some(Gases)
    else if tok == "solutions" then Some(Solutions)
    else if tok == "equipment" then Some(Equipment)
    else if tok == "services" then Some(Services)
    else if tok == "contacts" then Some(Contacts)
    else if tok == "order" then Some(Order)
    else if tok == "gas-details" then Some(GasDetails)
    else if tok == "solution-details" then Some(SolutionDetails)
    else if tok == "equipment-details" then Some(EquipmentDetails)
    else if tok == "service-details" then Some(ServiceDetails)
    else None
  }

  lemma TokenRoundTrip(r: Route)
    ensures RouteOfToken(Token(r)) == Some(r)
  {
  }

  /** The four kinds of catalog entry, one selection slot each. */
  datatype Kind = GasKind | SolutionKind | ServiceKind | EquipmentKind

  datatype Selection = Selection(gas: Option<Entity>, solution: Option<Entity>, service: Option<Entity>, equipment: Option<Entity>)

  const NoSelection := Selection(None, None, None, None)

  function Slot(sel: Selection, k: Kind): Option<Entity>
  {
    match k
    case GasKind => sel.gas
    case SolutionKind => sel.solution
    case ServiceKind => sel.service
    case EquipmentKind => sel.equipment
  }

  /** The selection that holds `o` in slot `k` and nothing in the other three. */
  function With(k: Kind, o: Option<Entity>): (sel: Selection)
    ensures Slot(sel, k) == o
    ensures forall k' :: k' != k ==> Slot(sel, k') == None
  {
    match k
    case GasKind => Selection(o, None, None, None)
    case SolutionKind => Selection(None, o, None, None)
    case ServiceKind => Selection(None, None, o, None)
    case EquipmentKind => Selection(None, None, None, o)
  }

  /** The mutual-exclusion invariant: at most one slot is filled. */
  predicate AtMostOne(sel: Selection)
  {
    forall k1, k2 :: Slot(sel, k1).Some? && Slot(sel, k2).Some? ==> k1 == k2
  }

  lemma WithIsExclusive(k: Kind, o: Option<Entity>)
    ensures AtMostOne(With(k, o))
  {
  }

  function DetailRoute(k: Kind): (r: Route)
    ensures r.IsDetail()
  {
    match k
    case GasKind => GasDetails
    case SolutionKind => SolutionDetails
    case ServiceKind => ServiceDetails
    case EquipmentKind => EquipmentDetails
  }

  function DetailKind(r: Route): (k: Kind)
    requires r.IsDetail()
    ensures DetailRoute(k) == r
  {
    match r
    case GasDetails => GasKind
    case SolutionDetails => SolutionKind
    case ServiceDetails => ServiceKind
    case EquipmentDetails => EquipmentKind
  }

  function TableOf(t: Tables, k: Kind): seq<Entity>
  {
    match k
    case GasKind => t.gases
    case SolutionKind => t.solutions
    case ServiceKind => t.services
    case EquipmentKind => t.equipment
  }

  /** The router's state: the view, the selection and the selected variant label. */
  datatype NavState = NavState(route: Route, sel: Selection, variant: Option<string>)

  /**
   * `window.location.hash || "#home"`, one leading `#` removed, split on `/`:
   * the first part is the path and the second, when there is one, the id.
   */
  function ParseHash(hash: string): (r: (string, Option<string>))
    ensures '/' !in r.0
    ensures r.1.Some? ==> '/' !in r.1.value
    // an empty fragment reads as the home page, with no id
    ensures hash == "" ==> r == ("home", None)
  {
    var h := if hash == "" then "#home" else hash;
    var body := if h[0] == '#' then h[1..] else h;
    var parts := Split(body, '/');
    assert hash == "" ==> parts == ["home"] by {
      if hash == "" {
        assert body == "home";
        SplitWithoutSeparator("home", '/');
      }
    }
    (parts[0], if |parts| >= 2 then Some(parts[1]) else None)
  }

  /** The route `syncFromHash` sets for a fragment: the named one, or `home` for an unknown path. */
  function HashRoute(hash: string): (r: Route)
    // a path that is some route's token selects that route; any other path selects `home`
    ensures (exists r' :: Token(r') == ParseHash(hash).0) ==> Token(r) == ParseHash(hash).0
    ensures (forall r' :: Token(r') != ParseHash(hash).0) ==> r == Home
  {
    var r := RouteOfToken(ParseHash(hash).0);
    if r.Some? then r.value else Home
  }

  /** `syncFromHash`: the state after reading the fragment `hash` in state `s`. */
  function SyncFromHash(t: Tables, hash: string, s: NavState): (r: NavState)
    ensures r.route == HashRoute(hash)
    ensures r.variant == s.variant
    ensures r.route.IsList() ==> r.sel == NoSelection
    ensures r.route == Order ==> r.sel == s.sel
    ensures r.route.IsDetail() ==>
              r.sel == With(DetailKind(r.route), Find(TableOf(t, DetailKind(r.route)), ParseHash(hash).1))
  {
    var (path, id) := ParseHash(hash);
    match RouteOfToken(path)
    case None => NavState(Home, NoSelection, s.variant)
    case Some(route) =>
      if route.IsList() then NavState(route, NoSelection, s.variant)
      else if route == Order then s.(route := Order)
      else
        var k := DetailKind(route);
        NavState(route, With(k, Find(TableOf(t, k), id)), s.variant)
  }

  function IdOf(o: Option<Entity>): (id: Option<string>)
    ensures id.Some? <==> o.Some?
  {
    if o.Some? then Some(o.value.id) else None
  }

  /** The selection id a detail route writes into the fragment, if any. */
  function FragmentId(s: NavState): Option<string>
  {
    if s.route.IsDetail() then OrNull(IdOf(Slot(s.sel, DetailKind(s.route)))) else None
  }

  /**
   * The outbound effect's fragment: the route's token, with `/id` appended on a detail
   * route whose slot holds an entry with a non-empty id (`FragmentShape`).
   */
  function Fragment(s: NavState): (f: string)
    ensures |f| > |Token(s.route)| && f[..1 + |Token(s.route)|] == "#" + Token(s.route)
  {
    var hashRoute := Token(s.route);
    var hashRoute :=
      if s.route == EquipmentDetails && Truthy(IdOf(s.sel.equipment)) then "equipment-details/" + s.sel.equipment.value.id else hashRoute;
    var hashRoute :=
      if s.route == SolutionDetails && Truthy(IdOf(s.sel.solution)) then "solution-details/" + s.sel.solution.value.id else hashRoute;
    var hashRoute :=
      if s.route == GasDetails && Truthy(IdOf(s.sel.gas)) then "gas-details/" + s.sel.gas.value.id else hashRoute;
    var hashRoute :=
      if s.route == ServiceDetails && Truthy(IdOf(s.sel.service)) then "service-details/" + s.sel.service.value.id else hashRoute;
    "#" + hashRoute
  }

  /** The fragment is `#route/id` exactly when the route is a detail route whose slot has a non-empty id, `#route` otherwise. */
  lemma FragmentShape(s: NavState)
    ensures FragmentId(s).None? ==> Fragment(s) == "#" + Token(s.route)
    ensures FragmentId(s).Some? ==> Fragment(s) == "#" + Token(s.route) + "/" + FragmentId(s).value
  {
    if FragmentId(s).Some? {
      FragmentWithId(s);
    }
  }

  lemma FragmentWithId(s: NavState)
    requires FragmentId(s).Some?
    ensures Fragment(s) == "#" + Token(s.route) + "/" + FragmentId(s).value
  {
    var id := FragmentId(s).value;
    match s.route
    case EquipmentDetails => assert "equipment-details/" + id == Token(s.route) + "/" + id;
    case SolutionDetails => assert "solution-details/" + id == Token(s.route) + "/" + id;
    case GasDetails => assert "gas-details/" + id == Token(s.route) + "/" + id;
    case ServiceDetails => assert "service-details/" + id == Token(s.route) + "/" + id;
  }

  /** Reading a fragment back gives its route token and its id, when the id holds no `/`. */
  lemma ParseFragment(s: NavState)
    requires FragmentId(s).Some? ==> '/' !in FragmentId(s).value
    ensures ParseHash(Fragment(s)) == (Token(s.route), FragmentId(s))
  {
    var f := Fragment(s);
    FragmentShape(s);
    assert f[1..] == if FragmentId(s).None? then Token(s.route) else Token(s.route) + ['/'] + FragmentId(s).value;
    if FragmentId(s).None? {
      SplitWithoutSeparator(Token(s.route), '/');
    } else {
      SplitAfterFirst(Token(s.route), FragmentId(s).value, '/');
      SplitWithoutSeparator(FragmentId(s).value, '/');
    }
    TokenRoundTrip(s.route);
  }

  /** The values the outbound effect watches: the route and the four selection ids. */
  datatype Deps = Deps(route: Route, equipmentId: Option<string>, solutionId: Option<string>, serviceId: Option<string>, gasId: Option<string>)

  function DepsOf(s: NavState): Deps
  {
    Deps(s.route, IdOf(s.sel.equipment), IdOf(s.sel.solution), IdOf(s.sel.service), IdOf(s.sel.gas))
  }

  /** The watched values are the route and, for each slot, its entry's id exactly when the slot is filled. */
  lemma DepsOfWatches(s: NavState)
    ensures DepsOf(s).route == s.route
    ensures forall k :: DepId(DepsOf(s), k) == IdOf(Slot(s.sel, k))
  {
  }

  function DepId(d: Deps, k: Kind): Option<string>
  {
    match k
    case GasKind => d.gasId
    case SolutionKind => d.solutionId
    case ServiceKind => d.serviceId
    case EquipmentKind => d.equipmentId
  }

  lemma FragmentFollowsDeps(a: NavState, b: NavState)
    requires DepsOf(a) == DepsOf(b)
    ensures Fragment(a) == Fragment(b)
  {
  }

  /** After one sync, writing the canonical fragment and syncing from it again leaves that fragment unchanged. */
  lemma SyncedFragmentIsStable(t: Tables, hash: string, s: NavState)
    ensures var s1 := SyncFromHash(t, hash, s);
            Fragment(SyncFromHash(t, Fragment(s1), s1)) == Fragment(s1)
  {
    var s1 := SyncFromHash(t, hash, s);
    if s1.route.IsDetail() {
      var k := DetailKind(s1.route);
      var id := ParseHash(hash).1;
      var found := Find(TableOf(t, k), id);
      assert Slot(s1.sel, k) == found;
      if FragmentId(s1).Some? {
        assert found.Some? && id == Some(found.value.id);
      }
    }
    ParseFragment(s1);
  }

  /** What the address bar and the state are once a render has finished. */
  datatype Page = Page(hash: string, nav: NavState)

  /**
   * What follows a state change: the outbound effect runs when the route or a selection
   * id changed since `before`; it writes the fragment only when it differs from `hash`, and
   * a write fires `hashchange`, whose handler syncs the state from the new fragment. That
   * sync may change the watched values once more, so the effect runs a second time. After
   * that, whenever the effect ran, the address bar holds the state's own fragment, so a
   * further run would write nothing.
   */
  function Render(t: Tables, before: Deps, hash: string, s: NavState): (p: Page)
    ensures DepsOf(s) == before ==> p == Page(hash, s)
    ensures DepsOf(s) != before ==> p.hash == Fragment(p.nav)
  {
    if DepsOf(s) == before then Page(hash, s)
    else
      var f := Fragment(s);
      if hash == f then Page(hash, s)
      else
        var s1 := SyncFromHash(t, f, s);
        if DepsOf(s1) == DepsOf(s) then
          FragmentFollowsDeps(s1, s);
          Page(f, s1)
        else
          var f1 := Fragment(s1);
          if f1 == f then Page(f, s1)
          else
            SyncedFragmentIsStable(t, f, s);
            Page(f1, SyncFromHash(t, f1, s1))
  }

  /**
   * The invariant between events: at most one slot is filled, a list page has no
   * selection, and a fragment that names a list page agrees with the state.
   */
  predicate Coherent(t: Tables, hash: string, s: NavState)
  {
    && AtMostOne(s.sel)
    && (s.route.IsList() ==> s.sel == NoSelection)
    && (HashRoute(hash).IsList() ==> s.route == HashRoute(hash) && s.sel == NoSelection)
  }

  /** Syncing from any fragment establishes the invariant. */
  lemma SyncIsCoherent(t: Tables, hash: string, s: NavState)
    requires AtMostOne(s.sel)
    ensures Coherent(t, hash, SyncFromHash(t, hash, s))
  {
    var r := SyncFromHash(t, hash, s);
    if r.route.IsDetail() {
      WithIsExclusive(DetailKind(r.route), Slot(r.sel, DetailKind(r.route)));
    }
  }

  /**
   * What a handler must leave for the render to restore the invariant: an exclusive
   * selection, the invariant itself if nothing the effect watches changed, and no
   * selection on a list page whose fragment is already in the address bar.
   */
  predicate ReadyToRender(t: Tables, before: Deps, hash: string, s: NavState)
  {
    && AtMostOne(s.sel)
    && (DepsOf(s) == before ==> Coherent(t, hash, s))
    && (s.route.IsList() && hash == Fragment(s) ==> s.sel == NoSelection)
  }

  lemma {:induction false} RenderIsCoherent(t: Tables, before: Deps, hash: string, s: NavState)
    requires ReadyToRender(t, before, hash, s)
    ensures Coherent(t, Render(t, before, hash, s).hash, Render(t, before, hash, s).nav)
  {
    if DepsOf(s) != before {
      var f := Fragment(s);
      if hash == f {
        HashRouteOfFragment(s);
      } else {
        var s1 := SyncFromHash(t, f, s);
        SyncIsCoherent(t, f, s);
        if DepsOf(s1) != DepsOf(s) && Fragment(s1) != f {
          SyncIsCoherent(t, Fragment(s1), s1);
        }
      }
    }
  }

  /** A handler that moves to a detail or order page with an exclusive selection leaves the state ready to render. */
  lemma HandlerIsReady(t: Tables, hash: string, s: NavState, s': NavState)
    requires Coherent(t, hash, s)
    requires !s'.route.IsList() && AtMostOne(s'.sel)
    ensures ReadyToRender(t, DepsOf(s), hash, s')
  {
  }

  /** `setRoute(r)` on a coherent state leaves it ready to render. */
  lemma SetRouteIsReady(t: Tables, hash: string, s: NavState, r: Route)
    requires Coherent(t, hash, s)
    ensures ReadyToRender(t, DepsOf(s), hash, s.(route := r))
  {
    HashRouteOfFragment(s.(route := r));
  }

  /** A fragment names the route it was written for. */
  lemma HashRouteOfFragment(s: NavState)
    ensures HashRoute(Fragment(s)) == s.route
  {
    var f := Fragment(s);
    FragmentShape(s);
    var body := if FragmentId(s).None? then Token(s.route) else Token(s.route) + ['/'] + FragmentId(s).value;
    assert f[1..] == body;
    if FragmentId(s).None? {
      SplitWithoutSeparator(Token(s.route), '/');
    } else {
      SplitAfterFirst(Token(s.route), FragmentId(s).value, '/');
    }
    TokenRoundTrip(s.route);
  }

  /**
   * A state the fragment can express: a list page without selection, the order page with
   * any selection, or a detail page whose slot is empty or holds an entry of its own table
   * (ids unique there) whose id is non-empty and free of `/`.
   */
  predicate Canonical(t: Tables, s: NavState)
  {
    && (s.route.IsList() ==> s.sel == NoSelection)
    && (s.route.IsDetail() ==>
          var k := DetailKind(s.route);
          var o := Slot(s.sel, k);
          && s.sel == With(k, o)
          && (o.Some? ==> o.value in TableOf(t, k) && UniqueIds(TableOf(t, k)) && o.value.id != "" && '/' !in o.value.id))
  }

  /** Round trip: syncing from the fragment of a canonical state reproduces the state. */
  lemma {:induction false} FragmentRoundTrip(t: Tables, s: NavState)
    requires Canonical(t, s)
    ensures SyncFromHash(t, Fragment(s), s) == s
  {
    ParseFragment(s);
    HashRouteOfFragment(s);
    var r := SyncFromHash(t, Fragment(s), s);
    if s.route.IsDetail() {
      var k := DetailKind(s.route);
      var o := Slot(s.sel, k);
      if o.Some? {
        FindOwnId(TableOf(t, k), o.value);
      }
      assert r.sel == With(k, o);
    }
  }

  /** A handler that leaves a canonical state keeps it through the render, and the address bar then shows its fragment. */
  lemma RenderKeepsCanonical(t: Tables, before: Deps, hash: string, s: NavState)
    requires Canonical(t, s)
    ensures Render(t, before, hash, s).nav == s
    ensures DepsOf(s) != before ==> Render(t, before, hash, s).hash == Fragment(s)
  {
    FragmentRoundTrip(t, s);
  }

  // ---- the handlers, as functions of the state ----

  /**
   * `openGasPage`, `openSolutionPage`, `openServicePage`, `openEquipmentPage`: the slot of
   * kind `k` holds `e`, the other three are cleared, the route is that kind's detail page;
   * only the solution page keeps a variant label.
   */
  function OpenDetails(k: Kind, e: Entity, variantLabel: Option<string>): (s: NavState)
    ensures s.route == DetailRoute(k) && Slot(s.sel, k) == Some(e) && AtMostOne(s.sel)
    ensures s.variant == (if k == SolutionKind then OrNull(variantLabel) else None)
  {
    WithIsExclusive(k, Some(e));
    NavState(DetailRoute(k), With(k, Some(e)), if k == SolutionKind then OrNull(variantLabel) else None)
  }

  /** `startOrderFromSolution`'s classification: solutions first, then services, then equipment, else a solution. */
  function ClassifyOrderItem(t: Tables, item: Entity): (k: Kind)
    ensures k != GasKind
    ensures k == ServiceKind <==> !Contains(t.solutions, item.id) && Contains(t.services, item.id)
    ensures k == EquipmentKind <==> !Contains(t.solutions, item.id) && !Contains(t.services, item.id) && Contains(t.equipment, item.id)
  {
    if Contains(t.solutions, item.id) then SolutionKind
    else if Contains(t.services, item.id) then ServiceKind
    else if Contains(t.equipment, item.id) then EquipmentKind
    else SolutionKind
  }

  /** `startOrderFromGas` and `startOrderFromSolution`: the order page with exactly the item selected. */
  function StartOrder(k: Kind, item: Entity, variantLabel: Option<string>): (s: NavState)
    ensures s.route == Order && Slot(s.sel, k) == Some(item) && AtMostOne(s.sel) && s.variant == OrNull(variantLabel)
  {
    WithIsExclusive(k, Some(item));
    NavState(Order, With(k, Some(item)), OrNull(variantLabel))
  }

  /** Opening an entry of its own table ends, after the render, on its detail page with its fragment in the address bar. */
  lemma OpenDetailsSettles(t: Tables, before: Deps, hash: string, k: Kind, e: Entity, variantLabel: Option<string>)
    requires e in TableOf(t, k) && UniqueIds(TableOf(t, k)) && e.id != "" && '/' !in e.id
    ensures Render(t, before, hash, OpenDetails(k, e, variantLabel)).nav == OpenDetails(k, e, variantLabel)
    ensures DepsOf(OpenDetails(k, e, variantLabel)) != before ==>
              Render(t, before, hash, OpenDetails(k, e, variantLabel)).hash == "#" + Token(DetailRoute(k)) + "/" + e.id
  {
    var s := OpenDetails(k, e, variantLabel);
    assert DetailKind(s.route) == k && s.sel == With(k, Some(e));
    assert Canonical(t, s);
    RenderKeepsCanonical(t, before, hash, s);
    assert FragmentId(s) == Some(e.id);
    FragmentWithId(s);
  }

  /** Starting an order survives the render unchanged, whatever the item. */
  lemma StartOrderSettles(t: Tables, before: Deps, hash: string, k: Kind, item: Entity, variantLabel: Option<string>)
    ensures Render(t, before, hash, StartOrder(k, item, variantLabel)).nav == StartOrder(k, item, variantLabel)
  {
    RenderKeepsCanonical(t, before, hash, StartOrder(k, item, variantLabel));
  }

  /** Navigating to a list page clears every selection once the render is over, and keeps the variant. */
  lemma NavigateToListClears(t: Tables, hash: string, s: NavState, r: Route)
    requires Coherent(t, hash, s)
    requires r.IsList()
    ensures Render(t, DepsOf(s), hash, s.(route := r)).nav == NavState(r, NoSelection, s.variant)
  {
    var s' := s.(route := r);
    var f := Fragment(s');
    assert FragmentId(s').None?;
    HashRouteOfFragment(s');
    if DepsOf(s') != DepsOf(s) && hash != f {
      ParseFragment(s');
    }
  }

  /** The deep link `#equipment-details/eq-cylinders` selects that equipment entry. */
  lemma EquipmentDeepLink(t: Tables, s: NavState)
    requires t.equipment == EQUIPMENT
    ensures SyncFromHash(t, "#equipment-details/eq-cylinders", s)
         == NavState(EquipmentDetails, With(EquipmentKind, Some(EQUIPMENT[2])), s.variant)
  {
    ParseDeepLink();
    FindCylinders();
  }

  lemma ParseDeepLink()
    ensures ParseHash("#equipment-details/eq-cylinders") == ("equipment-details", Some("eq-cylinders"))
    ensures RouteOfToken("equipment-details") == Some(EquipmentDetails)
  {
    var hash := "#equipment-details/eq-cylinders";
    assert hash[1..] == "equipment-details" + ['/'] + "eq-cylinders";
    SplitAfterFirst("equipment-details", "eq-cylinders", '/');
    SplitWithoutSeparator("eq-cylinders", '/');
    TokenRoundTrip(EquipmentDetails);
  }

  lemma FindCylinders()
    ensures Find(EQUIPMENT, Some("eq-cylinders")) == Some(EQUIPMENT[2])
  {
    assert EQUIPMENT[0].id != "eq-cylinders" && EQUIPMENT[1].id != "eq-cylinders";
    assert EQUIPMENT[1..][1..] == EQUIPMENT[2..];
  }
}
