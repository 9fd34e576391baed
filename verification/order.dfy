/**
 * The order form: the draft's fields, the values derived from the selection, the
 * submission gate, the message text sent to the forwarding function, and how the
 * page reads that function's reply.
 */
module OrderForm {
  import opened Wrappers
  import opened Strings
  import opened CatalogData
  import opened HashRouter
  import opened Utils
  import opened SendTelegram

  /** The cylinder sizes in litres offered as buttons, and the labels the ownership and delivery buttons store. */
  const CYLINDER_SIZES: seq<nat> := [5, 10, 25, 40, 50]
  const OWNERSHIP: seq<string> := ["Мой баллон", "Баллон компании"]
  const DELIVERY: seq<string> := ["Самовывоз", "Доставка"]

  /** The order draft: `cylinder`, `ownership`, `delivery`, `phone`, `region`, `comment`. */
  datatype Draft = Draft(cylinder: Option<nat>, ownership: Option<string>, delivery: Option<string>,
                         phone: string, region: string, comment: string)

  const InitialDraft := Draft(None, None, None, "", DEFAULT_REGION, "")

  /** `resetOrder`: every field cleared except the region. */
  function ResetDraft(d: Draft): (r: Draft)
    ensures r.region == d.region
    ensures r == InitialDraft.(region := d.region)
  {
    Draft(None, None, None, "", d.region, "")
  }

  /** JavaScript truthiness of the chosen cylinder size (a number). */
  predicate CylinderSet(c: Option<nat>)
  {
    c.Some? && c.value != 0
  }

  // ---- values derived from the selection ----

  /** The name of a slot's entry, when it is set and non-empty. */
  function NameOf(o: Option<Entity>): (name: Option<string>)
    ensures name.Some? <==> o.Some? && o.value.name != ""
    ensures name.Some? ==> name.value == o.value.name
  {
    if o.Some? then OrNull(Some(o.value.name)) else None
  }

  /** `productTitleBase`: the first non-empty name among gas, solution, service and equipment, else `""`. */
  function TitleBase(sel: Selection): (base: string)
    ensures base == "" || exists k :: NameOf(Slot(sel, k)) == Some(base)
    ensures NameOf(sel.gas).Some? ==> base == sel.gas.value.name
    ensures base == "" <==> forall k :: NameOf(Slot(sel, k)).None?
  {
    if NameOf(sel.gas).Some? then
      assert NameOf(Slot(sel, GasKind)) == Some(sel.gas.value.name);
      sel.gas.value.name
    else if NameOf(sel.solution).Some? then
      assert NameOf(Slot(sel, SolutionKind)) == Some(sel.solution.value.name);
      sel.solution.value.name
    else if NameOf(sel.service).Some? then
      assert NameOf(Slot(sel, ServiceKind)) == Some(sel.service.value.name);
      sel.service.value.name
    else if NameOf(sel.equipment).Some? then
      assert NameOf(Slot(sel, EquipmentKind)) == Some(sel.equipment.value.name);
      sel.equipment.value.name
    else
      assert forall k :: NameOf(Slot(sel, k)).None?;
      ""
  }

  /** `productTitle`: the base title, followed by ` — {variant}` when a variant is set. */
  function ProductTitle(sel: Selection, variant: Option<string>): (title: string)
    ensures |title| >= |TitleBase(sel)| && title[..|TitleBase(sel)|] == TitleBase(sel)
    ensures Truthy(variant) <==> |title| > |TitleBase(sel)|
  {
    if Truthy(variant) then TitleBase(sel) + " — " + variant.value else TitleBase(sel)
  }

  /** With exactly one entry selected, the title is that entry's name, suffixed by the variant if there is one. */
  lemma TitleOfSingleSelection(k: Kind, e: Entity, variant: Option<string>)
    requires e.name != ""
    ensures ProductTitle(With(k, Some(e)), variant) == if Truthy(variant) then e.name + " — " + variant.value else e.name
  {
  }

  /** An entry's `items` as the description shows them: a list joined with `sep`, a text as is, nothing as `""`. */
  function ItemsText(items: Items, sep: string): (r: string)
    ensures items.NoItems? ==> r == ""
    ensures items.Text? ==> r == items.text
    ensures items.List? && |items.list| == 1 ==> r == items.list[0]
    ensures items.List? && |items.list| >= 1 ==>
              |r| == TotalLength(items.list) + (|items.list| - 1) * |sep| && r[..|items.list[0]|] == items.list[0]
  {
    match items
    case NoItems => ""
    case Text(text) => text
    case List(list) => Join(list, sep)
  }

  /** `productDesc`: a gas's description, else the items of the solution, the service or the equipment. */
  function ProductDesc(sel: Selection): (desc: string)
    ensures sel.gas.Some? && sel.gas.value.description != "" ==> desc == sel.gas.value.description
    ensures sel == NoSelection ==> desc == ""
  {
    if sel.gas.Some? && sel.gas.value.description != "" then sel.gas.value.description
    else if sel.solution.Some? then ItemsText(sel.solution.value.items, " • ")
    else if sel.service.Some? then ItemsText(sel.service.value.items, " • ")
    else if sel.equipment.Some? then ItemsText(sel.equipment.value.items, ",")
    else ""
  }

  /**
   * With exactly one entry selected, the description is a gas's own description, or the
   * entry's items: solution and service lists joined with ` • `, equipment lists with `,`.
   */
  lemma DescOfSingleSelection(k: Kind, e: Entity)
    ensures ProductDesc(With(k, Some(e))) ==
              if k == GasKind then e.description
              else ItemsText(e.items, if k == EquipmentKind then "," else " • ")
  {
  }

  // ---- the submission gate ----

  /** The slot of kind `k` holds an entry whose id is in that kind's own table. */
  predicate InOwnTable(t: Tables, sel: Selection, k: Kind)
    ensures InOwnTable(t, sel, k) <==> Slot(sel, k).Some? && Find(TableOf(t, k), Some(Slot(sel, k).value.id)).Some?
  {
    Slot(sel, k).Some? && Contains(TableOf(t, k), Slot(sel, k).value.id)
  }

  /** `skipOrderSteps`: a selected service, equipment or solution that is in its own table skips the cylinder steps. */
  function SkipOrderSteps(t: Tables, sel: Selection): (skip: bool)
    ensures skip <==> exists k :: k != GasKind && InOwnTable(t, sel, k)
  {
    var isService := InOwnTable(t, sel, ServiceKind);
    var isEquipment := InOwnTable(t, sel, EquipmentKind);
    var isSolution := InOwnTable(t, sel, SolutionKind);
    assert (exists k :: k != GasKind && InOwnTable(t, sel, k)) ==> isService || isEquipment || isSolution;
    isService || isEquipment || isSolution
  }

  /**
   * `canSubmit`: a phone of at least six characters always, and, unless the order skips
   * the cylinder steps, a cylinder size, an ownership and a delivery mode as well.
   */
  function CanSubmit(t: Tables, sel: Selection, d: Draft): (ok: bool)
    ensures |d.phone| < 6 ==> !ok
    ensures SkipOrderSteps(t, sel) ==> (ok <==> |d.phone| >= 6)
    ensures !SkipOrderSteps(t, sel) ==>
              (ok <==> CylinderSet(d.cylinder) && Truthy(d.ownership) && Truthy(d.delivery) && |d.phone| >= 6)
  {
    var phoneOk := d.phone != "" && |d.phone| >= 6;
    if SkipOrderSteps(t, sel) then phoneOk
    else CylinderSet(d.cylinder) && Truthy(d.ownership) && Truthy(d.delivery) && phoneOk
  }

  /** A gas order, or one with nothing selected, needs every cylinder step. */
  lemma GasOrderNeedsAllSteps(t: Tables, sel: Selection, d: Draft)
    requires sel == NoSelection || exists g :: sel == With(GasKind, Some(g))
    ensures CanSubmit(t, sel, d) <==>
              CylinderSet(d.cylinder) && Truthy(d.ownership) && Truthy(d.delivery) && |d.phone| >= 6
  {
    assert forall k :: k != GasKind ==> Slot(sel, k).None?;
  }

  /**
   * Every button choice is truthy (no size is 0, no label is empty), so picking one size,
   * one ownership and one delivery mode and typing six characters always unlocks the gate.
   */
  lemma ButtonChoicesUnlockGate(t: Tables, sel: Selection, d: Draft, size: nat, own: string, del: string)
    requires size in CYLINDER_SIZES && own in OWNERSHIP && del in DELIVERY
    requires |d.phone| >= 6
    ensures CanSubmit(t, sel, d.(cylinder := Some(size), ownership := Some(own), delivery := Some(del)))
  {
  }

  /** An order just started (draft reset) can never be submitted until a phone is typed. */
  lemma ResetDraftBlocksSubmit(t: Tables, sel: Selection, d: Draft)
    ensures !CanSubmit(t, sel, ResetDraft(d))
  {
  }

  /**
   * An item started from the solution, service or equipment pages skips the cylinder
   * steps exactly when it is found in one of those three tables.
   */
  lemma StartedItemSkips(t: Tables, item: Entity, variantLabel: Option<string>)
    ensures SkipOrderSteps(t, StartOrder(ClassifyOrderItem(t, item), item, variantLabel).sel) <==>
              Contains(t.solutions, item.id) || Contains(t.services, item.id) || Contains(t.equipment, item.id)
  {
    var k := ClassifyOrderItem(t, item);
    var sel := StartOrder(k, item, variantLabel).sel;
    assert forall k' :: k' != k ==> Slot(sel, k').None?;
    assert InOwnTable(t, sel, k) <==> Contains(TableOf(t, k), item.id);
  }

  /** A phone `isValidPhone` accepts always passes the gate's phone test; the converse fails for `"123456"`. */
  lemma ValidPhonePassesGate(t: Tables, sel: Selection, d: Draft)
    requires IsValidPhone(Some(d.phone))
    requires SkipOrderSteps(t, sel)
    ensures CanSubmit(t, sel, d)
  {
    ValidPhoneIsLong(d.phone);
  }

  lemma GateAcceptsInvalidPhone(t: Tables, sel: Selection, d: Draft)
    requires SkipOrderSteps(t, sel) && d.phone == "123456"
    ensures CanSubmit(t, sel, d) && !IsValidPhone(Some(d.phone))
  {
    SixDigitPhoneIsInvalid();
  }

  // ---- the message ----

  /** The snapshot `submitOrder` hands to `sendTelegram`. */
  datatype Payload = Payload(product: string, desc: string, cylinder: Option<nat>, ownership: Option<string>,
                             delivery: Option<string>, phone: string, region: string, comment: string, timestamp: string)

  function MakePayload(sel: Selection, variant: Option<string>, d: Draft, timestamp: string): (p: Payload)
    // the product line names the selected entry; the draft's fields are copied unchanged
    ensures p.product == ProductTitle(sel, variant) && p.desc == ProductDesc(sel)
    ensures (p.cylinder, p.ownership, p.delivery) == (d.cylinder, d.ownership, d.delivery)
    ensures (p.phone, p.region, p.comment, p.timestamp) == (d.phone, d.region, d.comment, timestamp)
  {
    Payload(ProductTitle(sel, variant), ProductDesc(sel), d.cylinder, d.ownership, d.delivery, d.phone, d.region, d.comment, timestamp)
  }

  /** `value || "-"` on a text. */
  function OrDash(s: string): (r: string)
    ensures r != ""
    ensures s != "" ==> r == s
  {
    if s == "" then "-" else s
  }

  function OptionOrDash(s: Option<string>): (r: string)
    ensures r != ""
    ensures Truthy(s) ==> r == s.value
    ensures !Truthy(s) ==> r == "-"
  {
    if Truthy(s) then s.value else "-"
  }

  function CylinderText(c: Option<nat>): (r: string)
    ensures r != ""
    ensures !CylinderSet(c) ==> r == "-"
    // a chosen size prints as its decimal digits, which read back as the size
    ensures CylinderSet(c) ==> AllDigits(r) && DigitsValue(r) == c.value
  {
    if CylinderSet(c) then
      DigitsValueOfNatToString(c.value);
      NatToString(c.value)
    else "-"
  }

  /** The ten line labels, in order. */
  const Labels: seq<string> := [
    "📦 *Новая заявка*", "Товар/услуга: ", "Описание: ", "Тара: ", "Владение: ",
    "Доставка: ", "Телефон: ", "Регион: ", "Комментарий: ", "Время: "]

  /** The ten lines of the message; `now` is the clock reading used when the payload has no timestamp. */
  function OrderLines(p: Payload, now: string): (lines: seq<string>)
    ensures |lines| == 10 && lines[0] == Labels[0]
    ensures forall i :: 1 <= i < 10 ==> |lines[i]| >= |Labels[i]| && lines[i][..|Labels[i]|] == Labels[i]
    ensures lines[6] == Labels[6] + p.phone
  {
    [ Labels[0],
      Labels[1] + p.product,
      Labels[2] + OrDash(p.desc),
      Labels[3] + CylinderText(p.cylinder) + " л",
      Labels[4] + OptionOrDash(p.ownership),
      Labels[5] + OptionOrDash(p.delivery),
      Labels[6] + p.phone,
      Labels[7] + OrDash(p.region),
      Labels[8] + OrDash(p.comment),
      Labels[9] + (if p.timestamp != "" then p.timestamp else now) ]
  }

  /** The message: the ten lines joined with newlines. */
  function OrderText(p: Payload, now: string): (text: string)
    ensures text != ""
  {
    Join(OrderLines(p, now), "\n")
  }

  /** Missing fields print as `-`, and the cylinder line always ends in ` л`. */
  lemma MissingFieldsPrintDash(p: Payload, now: string)
    ensures var lines := OrderLines(p, now);
            && (p.desc == "" ==> lines[2] == "Описание: -")
            && (!CylinderSet(p.cylinder) ==> lines[3] == "Тара: - л")
            && (!Truthy(p.ownership) ==> lines[4] == "Владение: -")
            && (!Truthy(p.delivery) ==> lines[5] == "Доставка: -")
            && (p.region == "" ==> lines[7] == "Регион: -")
            && (p.comment == "" ==> lines[8] == "Комментарий: -")
            && lines[3][|lines[3]| - 2..] == " л"
  {
  }

  predicate NoNewline(s: string)
  {
    '\n' !in s
  }

  /** When no field holds a newline, the message splits back into exactly its ten lines. */
  lemma OrderTextSplitsIntoLines(p: Payload, now: string)
    requires NoNewline(p.product) && NoNewline(p.desc) && NoNewline(p.phone) && NoNewline(p.region)
    requires NoNewline(p.comment) && NoNewline(p.timestamp) && NoNewline(now)
    requires p.ownership.Some? ==> NoNewline(p.ownership.value)
    requires p.delivery.Some? ==> NoNewline(p.delivery.value)
    ensures Split(OrderText(p, now), '\n') == OrderLines(p, now)
  {
    var lines := OrderLines(p, now);
    LabelsHaveNoNewline();
    NoNewlineInCylinderText(p.cylinder);
    forall i | 0 <= i < |lines| ensures NoNewline(lines[i]) {
      NoNewlineConcat(Labels[i], lines[i][|Labels[i]|..]);
      assert lines[i] == Labels[i] + lines[i][|Labels[i]|..];
    }
    SplitJoin(lines, '\n');
  }

  lemma NoNewlineConcat(a: string, b: string)
    ensures NoNewline(a + b) <==> NoNewline(a) && NoNewline(b)
  {
    if !NoNewline(a + b) {
      var i :| 0 <= i < |a + b| && (a + b)[i] == '\n';
      if i < |a| { assert a[i] == '\n'; } else { assert b[i - |a|] == '\n'; }
    }
  }

  lemma LabelsHaveNoNewline()
    ensures forall i :: 0 <= i < |Labels| ==> NoNewline(Labels[i])
  {
  }

  lemma NoNewlineInCylinderText(c: Option<nat>)
    ensures NoNewline(CylinderText(c) + " л")
  {
    var s := CylinderText(c);
    if CylinderSet(c) {
      forall i | 0 <= i < |s| ensures s[i] != '\n' { assert IsDigit(s[i]); }
    }
    NoNewlineConcat(s, " л");
  }

  // ---- the reply ----

  /**
   * `sendTelegram`'s result: the reply's `ok` field; `false` when the request threw (`None`)
   * or the reply is not JSON (reading it throws).
   */
  function SendSucceeded(reply: Option<Response>): (ok: bool)
    ensures ok <==> reply.Some? && reply.value.body.Json? && reply.value.body.reply.ok
  {
    match reply
    case None => false
    case Some(response) =>
      match response.body
      case PlainText(_) => false
      case Json(r) => r.ok
  }

  /**
   * End to end: the page posts its message to the forwarding function, which never
   * answers 400 or 405 to it; the page reports success exactly when the function made
   * the upstream call and the Bot API accepted the message.
   */
  lemma SubmissionSucceedsIffDelivered(p: Payload, now: string, token: Option<string>, chatId: Option<string>, upstream: Upstream)
    ensures var h := Handle("POST", JsonValue(Some(OrderText(p, now))), token, chatId, upstream);
            && h.response.status != 400 && h.response.status != 405
            && (h.call.Some? <==> Truthy(token) && Truthy(chatId))
            && (h.call.Some? ==> h.call.value.text == OrderText(p, now))
            && (SendSucceeded(Some(h.response)) <==>
                  h.call.Some? && upstream.Replied? && upstream.httpOk && upstream.body.ReplyData? && upstream.body.data.ok)
  {
  }
}
