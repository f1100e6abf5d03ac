/**
 * Structural and cross-field checks on a decoded order. Every rule is
 * checked (no short-circuit); the violations are collected in a fixed order
 * (order fields, delivery, payment, then the items by index) and, when there
 * is at least one, returned as a single `bad_message` error whose text joins
 * their messages with "; ".
 *
 * Each of the four groups of checks is described by a table: a datatype
 * naming its rules, the position of each rule in the order the source checks
 * them, when a rule is broken and the message it reports. The list the
 * checks append to holds `Violation`s, each standing for the exact message
 * `MessageOf` renders for it; the messages are rendered when they are joined.
 *
 * `net/mail.ParseAddress` (the e-mail check) is not modelled: the validator
 * takes the verdict of that parser as the parameter `validEmail`.
 */
module Validator {
  import opened Wrappers
  import opened Errors
  import opened Text
  import opened Orders
  import Decimal

  /** The source's test for a missing text field: `strings.TrimSpace(s) == ""`. */
  predicate Missing(s: string) {
    TrimSpace(s) == ""
  }

  /** A violated rule: its group, its rule and, for an item, the item's index. */
  datatype Violation =
    | OrderViolation(orderRule: OrderRule)
    | DeliveryViolation(deliveryRule: DeliveryRule)
    | PaymentViolation(paymentRule: PaymentRule)
    | ItemViolation(index: nat, itemRule: ItemRule)

  /** One check of a group: whether its rule is broken, and the violation it then reports. */
  datatype Check = Check(broken: bool, violation: Violation)

  /** `*errs = append(*errs, message)` when the rule is violated. */
  function Add(errs: seq<Violation>, broken: bool, v: Violation): seq<Violation> {
    if broken then errs + [v] else errs
  }

  /** `errs` followed by the violations of the broken checks among the first `k` of `cs`, in order. */
  function Collect(errs: seq<Violation>, cs: seq<Check>, k: nat): seq<Violation>
    requires k <= |cs|
  {
    if k == 0 then errs else Add(Collect(errs, cs, k - 1), cs[k - 1].broken, cs[k - 1].violation)
  }

  /** What a group appends does not depend on what was reported before it. */
  lemma {:induction false} CollectAppend(errs: seq<Violation>, cs: seq<Check>, k: nat)
    requires k <= |cs|
    ensures Collect(errs, cs, k) == errs + Collect([], cs, k)
  {
    if k == 0 {
      assert errs + [] == errs;
    } else {
      CollectAppend(errs, cs, k - 1);
      var e := Collect([], cs, k - 1);
      var v := cs[k - 1].violation;
      assert (errs + e) + [v] == errs + (e + [v]);
    }
  }

  /** The violations collected are those of the broken checks, and none is collected when none is broken. */
  lemma {:induction false} CollectMembers(cs: seq<Check>, k: nat)
    requires k <= |cs|
    ensures forall v :: v in Collect([], cs, k) <==> exists j :: 0 <= j < k && cs[j].broken && v == cs[j].violation
    ensures Collect([], cs, k) == [] <==> forall j :: 0 <= j < k ==> !cs[j].broken
  {
    if k > 0 {
      CollectMembers(cs, k - 1);
    }
  }

  // ---------------------------------------------------------------------
  // The rules of `validateOrder`

  datatype OrderRule =
    | UIDGiven | TrackGiven | EntryGiven | ServiceGiven | CreatedSet

  const OrderRuleCount: nat := 5

  /** The order rules in the order the source checks them. */
  function OrderRuleAt(k: nat): OrderRule
    requires k < OrderRuleCount
  {
    if k == 0 then UIDGiven
    else if k == 1 then TrackGiven
    else if k == 2 then EntryGiven
    else if k == 3 then ServiceGiven
    else CreatedSet
  }

  /** Where a rule sits in that order. */
  function OrderRuleIndex(r: OrderRule): (k: nat)
    ensures k < OrderRuleCount && OrderRuleAt(k) == r
  {
    match r
    case UIDGiven => 0
    case TrackGiven => 1
    case EntryGiven => 2
    case ServiceGiven => 3
    case CreatedSet => 4
  }

  /** The rule is broken by these inputs. */
  predicate OrderBreaks(r: OrderRule, o: Order) {
    match r
    case UIDGiven => Missing(o.orderUID)
    case TrackGiven => Missing(o.trackNumber)
    case EntryGiven => Missing(o.entry)
    case ServiceGiven => Missing(o.deliveryService)
    case CreatedSet => o.dateCreated.IsZero()
  }

  /** The text the source appends. */
  function OrderMessage(r: OrderRule): string {
    match r
    case UIDGiven => "order_uid is required"
    case TrackGiven => "track_number is required"
    case EntryGiven => "entry is required"
    case ServiceGiven => "delivery_service is required"
    case CreatedSet => "date_created is required"
  }

  /** The order checks, in the order the source runs them. */
  function OrderChecks(o: Order): (cs: seq<Check>)
    ensures |cs| == OrderRuleCount
  {
    seq(OrderRuleCount, k requires 0 <= k < OrderRuleCount =>
      Check(OrderBreaks(OrderRuleAt(k), o), OrderViolation(OrderRuleAt(k))))
  }

  /** The check at a rule's position is that rule's. */
  lemma OrderChecksByRule(o: Order)
    ensures forall r :: OrderChecks(o)[OrderRuleIndex(r)] == Check(OrderBreaks(r, o), OrderViolation(r))
  {
  }

  // ---------------------------------------------------------------------
  // The rules of `validateDelivery`

  datatype DeliveryRule =
    | NameGiven | PhoneGiven | ZipGiven | CityGiven | AddressGiven | RegionGiven | EmailGiven
    | EmailWellFormed

  const DeliveryRuleCount: nat := 8

  /** The delivery rules in the order the source checks them. */
  function DeliveryRuleAt(k: nat): DeliveryRule
    requires k < DeliveryRuleCount
  {
    if k == 0 then NameGiven
    else if k == 1 then PhoneGiven
    else if k == 2 then ZipGiven
    else if k == 3 then CityGiven
    else if k == 4 then AddressGiven
    else if k == 5 then RegionGiven
    else if k == 6 then EmailGiven
    else EmailWellFormed
  }

  /** Where a rule sits in that order. */
  function DeliveryRuleIndex(r: DeliveryRule): (k: nat)
    ensures k < DeliveryRuleCount && DeliveryRuleAt(k) == r
  {
    match r
    case NameGiven => 0
    case PhoneGiven => 1
    case ZipGiven => 2
    case CityGiven => 3
    case AddressGiven => 4
    case RegionGiven => 5
    case EmailGiven => 6
    case EmailWellFormed => 7
  }

  /** The rule is broken by these inputs. */
  predicate DeliveryBreaks(r: DeliveryRule, d: Delivery, validEmail: string -> bool) {
    match r
    case NameGiven => Missing(d.name)
    case PhoneGiven => Missing(d.phone)
    case ZipGiven => Missing(d.zip)
    case CityGiven => Missing(d.city)
    case AddressGiven => Missing(d.address)
    case RegionGiven => Missing(d.region)
    case EmailGiven => Missing(d.email)
    case EmailWellFormed => !Missing(d.email) && !validEmail(d.email)
  }

  /** The text the source appends. */
  function DeliveryMessage(r: DeliveryRule): string {
    match r
    case NameGiven => "delivery.name is required"
    case PhoneGiven => "delivery.phone is required"
    case ZipGiven => "delivery.zip is required"
    case CityGiven => "delivery.city is required"
    case AddressGiven => "delivery.address is required"
    case RegionGiven => "delivery.region is required"
    case EmailGiven => "delivery.email is required"
    case EmailWellFormed => "delivery.email has invalid format"
  }

  /** The delivery checks, in the order the source runs them. */
  function DeliveryChecks(d: Delivery, validEmail: string -> bool): (cs: seq<Check>)
    ensures |cs| == DeliveryRuleCount
  {
    seq(DeliveryRuleCount, k requires 0 <= k < DeliveryRuleCount =>
      Check(DeliveryBreaks(DeliveryRuleAt(k), d, validEmail), DeliveryViolation(DeliveryRuleAt(k))))
  }

  /** The delivery checks one by one. */
  lemma DeliveryChecksListed(d: Delivery, validEmail: string -> bool)
    ensures var cs := DeliveryChecks(d, validEmail);
      && cs[0] == Check(Missing(d.name), DeliveryViolation(NameGiven))
      && cs[1] == Check(Missing(d.phone), DeliveryViolation(PhoneGiven))
      && cs[2] == Check(Missing(d.zip), DeliveryViolation(ZipGiven))
      && cs[3] == Check(Missing(d.city), DeliveryViolation(CityGiven))
      && cs[4] == Check(Missing(d.address), DeliveryViolation(AddressGiven))
      && cs[5] == Check(Missing(d.region), DeliveryViolation(RegionGiven))
      && cs[6] == Check(Missing(d.email), DeliveryViolation(EmailGiven))
      && cs[7] == Check(!Missing(d.email) && !validEmail(d.email), DeliveryViolation(EmailWellFormed))
  {
  }

  /** The check at a rule's position is that rule's. */
  lemma DeliveryChecksByRule(d: Delivery, validEmail: string -> bool)
    ensures forall r :: DeliveryChecks(d, validEmail)[DeliveryRuleIndex(r)] == Check(DeliveryBreaks(r, d, validEmail), DeliveryViolation(r))
  {
  }

  // ---------------------------------------------------------------------
  // The rules of `validatePayment`

  datatype PaymentRule =
    | TransactionGiven | TransactionMatches | CurrencyGiven | ProviderGiven | PaymentDTPositive
    | AmountNonNegative | DeliveryCostNonNegative | GoodsTotalNonNegative | CustomFeeNonNegative

  const PaymentRuleCount: nat := 9

  /** The payment rules in the order the source checks them. */
  function PaymentRuleAt(k: nat): PaymentRule
    requires k < PaymentRuleCount
  {
    if k == 0 then TransactionGiven
    else if k == 1 then TransactionMatches
    else if k == 2 then CurrencyGiven
    else if k == 3 then ProviderGiven
    else if k == 4 then PaymentDTPositive
    else if k == 5 then AmountNonNegative
    else if k == 6 then DeliveryCostNonNegative
    else if k == 7 then GoodsTotalNonNegative
    else CustomFeeNonNegative
  }

  /** Where a rule sits in that order. */
  function PaymentRuleIndex(r: PaymentRule): (k: nat)
    ensures k < PaymentRuleCount && PaymentRuleAt(k) == r
  {
    match r
    case TransactionGiven => 0
    case TransactionMatches => 1
    case CurrencyGiven => 2
    case ProviderGiven => 3
    case PaymentDTPositive => 4
    case AmountNonNegative => 5
    case DeliveryCostNonNegative => 6
    case GoodsTotalNonNegative => 7
    case CustomFeeNonNegative => 8
  }

  /** The rule is broken by these inputs. */
  predicate PaymentBreaks(r: PaymentRule, p: Payment, orderUID: string) {
    match r
    case TransactionGiven => Missing(p.transaction)
    case TransactionMatches => p.transaction != orderUID
    case CurrencyGiven => Missing(p.currency)
    case ProviderGiven => Missing(p.provider)
    case PaymentDTPositive => p.paymentDT <= 0
    case AmountNonNegative => p.amount < 0
    case DeliveryCostNonNegative => p.deliveryCost < 0
    case GoodsTotalNonNegative => p.goodsTotal < 0
    case CustomFeeNonNegative => p.customFee < 0
  }

  /** The text the source appends. */
  function PaymentMessage(r: PaymentRule): string {
    match r
    case TransactionGiven => "payment.transaction is required"
    case TransactionMatches => "payment.transaction must equal order_uid"
    case CurrencyGiven => "payment.currency is required"
    case ProviderGiven => "payment.provider is required"
    case PaymentDTPositive => "payment.payment_dt must be positive"
    case AmountNonNegative => "payment.amount must be >= 0"
    case DeliveryCostNonNegative => "payment.delivery_cost must be >= 0"
    case GoodsTotalNonNegative => "payment.goods_total must be >= 0"
    case CustomFeeNonNegative => "payment.custom_fee must be >= 0"
  }

  /** The payment checks, in the order the source runs them. */
  function PaymentChecks(p: Payment, orderUID: string): (cs: seq<Check>)
    ensures |cs| == PaymentRuleCount
  {
    seq(PaymentRuleCount, k requires 0 <= k < PaymentRuleCount =>
      Check(PaymentBreaks(PaymentRuleAt(k), p, orderUID), PaymentViolation(PaymentRuleAt(k))))
  }

  /** The payment checks one by one. */
  lemma PaymentChecksListed(p: Payment, orderUID: string)
    ensures var cs := PaymentChecks(p, orderUID);
      && cs[0] == Check(Missing(p.transaction), PaymentViolation(TransactionGiven))
      && cs[1] == Check(p.transaction != orderUID, PaymentViolation(TransactionMatches))
      && cs[2] == Check(Missing(p.currency), PaymentViolation(CurrencyGiven))
      && cs[3] == Check(Missing(p.provider), PaymentViolation(ProviderGiven))
      && cs[4] == Check(p.paymentDT <= 0, PaymentViolation(PaymentDTPositive))
      && cs[5] == Check(p.amount < 0, PaymentViolation(AmountNonNegative))
      && cs[6] == Check(p.deliveryCost < 0, PaymentViolation(DeliveryCostNonNegative))
      && cs[7] == Check(p.goodsTotal < 0, PaymentViolation(GoodsTotalNonNegative))
      && cs[8] == Check(p.customFee < 0, PaymentViolation(CustomFeeNonNegative))
  {
  }

  /** The check at a rule's position is that rule's. */
  lemma PaymentChecksByRule(p: Payment, orderUID: string)
    ensures forall r :: PaymentChecks(p, orderUID)[PaymentRuleIndex(r)] == Check(PaymentBreaks(r, p, orderUID), PaymentViolation(r))
  {
  }

  // ---------------------------------------------------------------------
  // The rules of `validateItems`

  datatype ItemRule =
    | ChrtIDPositive | ItemTrackGiven | PriceNonNegative | RidGiven | ItemNameGiven
    | SaleNonNegative | TotalPriceNonNegative | NmIDPositive | ItemTrackMatches

  const ItemRuleCount: nat := 9

  /** The item rules in the order the source checks them. */
  function ItemRuleAt(k: nat): ItemRule
    requires k < ItemRuleCount
  {
    if k == 0 then ChrtIDPositive
    else if k == 1 then ItemTrackGiven
    else if k == 2 then PriceNonNegative
    else if k == 3 then RidGiven
    else if k == 4 then ItemNameGiven
    else if k == 5 then SaleNonNegative
    else if k == 6 then TotalPriceNonNegative
    else if k == 7 then NmIDPositive
    else ItemTrackMatches
  }

  /** Where a rule sits in that order. */
  function ItemRuleIndex(r: ItemRule): (k: nat)
    ensures k < ItemRuleCount && ItemRuleAt(k) == r
  {
    match r
    case ChrtIDPositive => 0
    case ItemTrackGiven => 1
    case PriceNonNegative => 2
    case RidGiven => 3
    case ItemNameGiven => 4
    case SaleNonNegative => 5
    case TotalPriceNonNegative => 6
    case NmIDPositive => 7
    case ItemTrackMatches => 8
  }

  /** The rule is broken by these inputs. */
  predicate ItemBreaks(r: ItemRule, it: Item, trackNumber: string) {
    match r
    case ChrtIDPositive => it.chrtID <= 0
    case ItemTrackGiven => Missing(it.trackNumber)
    case PriceNonNegative => it.price < 0
    case RidGiven => Missing(it.rid)
    case ItemNameGiven => Missing(it.name)
    case SaleNonNegative => it.sale < 0
    case TotalPriceNonNegative => it.totalPrice < 0
    case NmIDPositive => it.nmID <= 0
    case ItemTrackMatches => it.trackNumber != trackNumber
  }

  /** The text the source appends after the prefix "items[i]". */
  function ItemMessage(r: ItemRule): string {
    match r
    case ChrtIDPositive => ": chrt_id must be > 0"
    case ItemTrackGiven => ": track_number is required"
    case PriceNonNegative => ": price must be >= 0"
    case RidGiven => ": rid is required"
    case ItemNameGiven => ": name is required"
    case SaleNonNegative => ": sale must be >= 0"
    case TotalPriceNonNegative => ": total_price must be >= 0"
    case NmIDPositive => ": nm_id must be > 0"
    case ItemTrackMatches => ": track_number must equal order.track_number"
  }

  /** The item checks, in the order the source runs them for the item at index `i`. */
  function ItemChecks(i: nat, it: Item, trackNumber: string): (cs: seq<Check>)
    ensures |cs| == ItemRuleCount
  {
    seq(ItemRuleCount, k requires 0 <= k < ItemRuleCount =>
      Check(ItemBreaks(ItemRuleAt(k), it, trackNumber), ItemViolation(i, ItemRuleAt(k))))
  }

  /** The checks of the item at index `i` one by one. */
  lemma ItemChecksListed(i: nat, it: Item, trackNumber: string)
    ensures var cs := ItemChecks(i, it, trackNumber);
      && cs[0] == Check(it.chrtID <= 0, ItemViolation(i, ChrtIDPositive))
      && cs[1] == Check(Missing(it.trackNumber), ItemViolation(i, ItemTrackGiven))
      && cs[2] == Check(it.price < 0, ItemViolation(i, PriceNonNegative))
      && cs[3] == Check(Missing(it.rid), ItemViolation(i, RidGiven))
      && cs[4] == Check(Missing(it.name), ItemViolation(i, ItemNameGiven))
      && cs[5] == Check(it.sale < 0, ItemViolation(i, SaleNonNegative))
      && cs[6] == Check(it.totalPrice < 0, ItemViolation(i, TotalPriceNonNegative))
      && cs[7] == Check(it.nmID <= 0, ItemViolation(i, NmIDPositive))
      && cs[8] == Check(it.trackNumber != trackNumber, ItemViolation(i, ItemTrackMatches))
  {
  }

  /** The check at a rule's position is that rule's. */
  lemma ItemChecksByRule(i: nat, it: Item, trackNumber: string)
    ensures forall r :: ItemChecks(i, it, trackNumber)[ItemRuleIndex(r)] == Check(ItemBreaks(r, it, trackNumber), ItemViolation(i, r))
  {
  }

  // ---------------------------------------------------------------------
  // Messages

  /** `fmt.Sprintf("items[%d]", i)`. */
  function ItemPrefix(i: nat): string {
    "items[" + Decimal.FormatInt(i) + "]"
  }

  /** The message the source appends for a violation. */
  function MessageOf(v: Violation): string {
    match v
    case OrderViolation(r) => OrderMessage(r)
    case DeliveryViolation(r) => DeliveryMessage(r)
    case PaymentViolation(r) => PaymentMessage(r)
    case ItemViolation(i, r) => ItemPrefix(i) + ItemMessage(r)
  }

  /** The messages of a list of violations, in list order. */
  function Messages(vs: seq<Violation>): (ts: seq<string>)
    ensures |ts| == |vs|
    ensures forall k :: 0 <= k < |vs| ==> ts[k] == MessageOf(vs[k])
  {
    seq(|vs|, k requires 0 <= k < |vs| => MessageOf(vs[k]))
  }

  // ---------------------------------------------------------------------
  // The reports of each group, appended to the list so far

  /** What `validateOrder` appends. */
  function CheckOrderFields(errs: seq<Violation>, o: Order): seq<Violation> {
    Collect(errs, OrderChecks(o), OrderRuleCount)
  }

  /** What `validateDelivery` appends. */
  function CheckDelivery(errs: seq<Violation>, d: Delivery, validEmail: string -> bool): seq<Violation> {
    Collect(errs, DeliveryChecks(d, validEmail), DeliveryRuleCount)
  }

  /** What `validatePayment` appends; `orderUID` is the order's. */
  function CheckPayment(errs: seq<Violation>, p: Payment, orderUID: string): seq<Violation> {
    Collect(errs, PaymentChecks(p, orderUID), PaymentRuleCount)
  }

  /** What one iteration of the loop in `validateItems` appends for the item at index `i`. */
  function CheckItem(errs: seq<Violation>, i: nat, it: Item, trackNumber: string): seq<Violation> {
    Collect(errs, ItemChecks(i, it, trackNumber), ItemRuleCount)
  }

  /** The reports of each item on its own, by index. */
  function ItemReports(items: seq<Item>, trackNumber: string): (r: seq<seq<Violation>>)
    ensures |r| == |items|
    ensures forall k :: 0 <= k < |items| ==> r[k] == CheckItem([], k, items[k], trackNumber)
  {
    seq(|items|, k requires 0 <= k < |items| => CheckItem([], k, items[k], trackNumber))
  }

  /** The lists of `ss`, one after the other. */
  function Flatten(ss: seq<seq<Violation>>): seq<Violation> {
    if ss == [] then [] else Flatten(ss[..|ss| - 1]) + ss[|ss| - 1]
  }

  /** What `validateItems` appends: the reports of item 0, then of item 1, and so on. */
  function CheckItems(items: seq<Item>, trackNumber: string): seq<Violation> {
    Flatten(ItemReports(items, trackNumber))
  }

  /** Every violated rule of the order, in the order `Validate` reports them. */
  function Violations(o: Order, validEmail: string -> bool): seq<Violation> {
    CheckOrderFields([], o) + CheckDelivery([], o.delivery, validEmail)
    + CheckPayment([], o.payment, o.orderUID) + CheckItems(o.items, o.trackNumber)
  }

  /** The error text `fmt.Errorf("%w: %s", ErrBadMessage, strings.Join(errs, "; "))` produces. */
  function BadMessageText(errs: seq<Violation>): string {
    "bad_message: " + Join(Messages(errs), "; ")
  }

  /** What `Validate` returns: nil when nothing was reported, else a `bad_message` error. */
  function Verdict(o: Order, validEmail: string -> bool): Outcome<Error> {
    var errs := Violations(o, validEmail);
    if |errs| > 0 then Fail(Error(BadMessage, BadMessageText(errs))) else Pass
  }

  // ---------------------------------------------------------------------
  // The checks as the source runs them: each appends to a shared list

  /** `validateOrder`: the header fields. */
  method ValidateOrder(errs: seq<Violation>, o: Order) returns (out: seq<Violation>)
    ensures out == CheckOrderFields(errs, o)
  {
    ghost var cs := OrderChecks(o);
    out := errs;
    if Missing(o.orderUID) { out := out + [OrderViolation(UIDGiven)]; }
    assert out == Collect(errs, cs, 1);
    if Missing(o.trackNumber) { out := out + [OrderViolation(TrackGiven)]; }
    assert out == Collect(errs, cs, 2);
    if Missing(o.entry) { out := out + [OrderViolation(EntryGiven)]; }
    assert out == Collect(errs, cs, 3);
    if Missing(o.deliveryService) { out := out + [OrderViolation(ServiceGiven)]; }
    assert out == Collect(errs, cs, 4);
    if o.dateCreated.IsZero() { out := out + [OrderViolation(CreatedSet)]; }
  }

  /** `validateDelivery`: the format of the e-mail is checked only when it is given. */
  method ValidateDelivery(errs: seq<Violation>, d: Delivery, validEmail: string -> bool) returns (out: seq<Violation>)
    ensures out == CheckDelivery(errs, d, validEmail)
  {
    ghost var cs := DeliveryChecks(d, validEmail);
    DeliveryChecksListed(d, validEmail);
    out := errs;
    if Missing(d.name) { out := out + [DeliveryViolation(NameGiven)]; }
    assert out == Collect(errs, cs, 1);
    if Missing(d.phone) { out := out + [DeliveryViolation(PhoneGiven)]; }
    assert out == Collect(errs, cs, 2);
    if Missing(d.zip) { out := out + [DeliveryViolation(ZipGiven)]; }
    assert out == Collect(errs, cs, 3);
    if Missing(d.city) { out := out + [DeliveryViolation(CityGiven)]; }
    assert out == Collect(errs, cs, 4);
    if Missing(d.address) { out := out + [DeliveryViolation(AddressGiven)]; }
    assert out == Collect(errs, cs, 5);
    if Missing(d.region) { out := out + [DeliveryViolation(RegionGiven)]; }
    assert out == Collect(errs, cs, 6);
    if Missing(d.email) {
      out := out + [DeliveryViolation(EmailGiven)];
      assert out == Collect(errs, cs, 7);
    } else if !validEmail(d.email) {
      assert out == Collect(errs, cs, 7);
      out := out + [DeliveryViolation(EmailWellFormed)];
    } else {
      assert out == Collect(errs, cs, 7);
    }
  }

  /** `validatePayment`: the payment must belong to the order `o`. */
  method ValidatePayment(errs: seq<Violation>, p: Payment, o: Order) returns (out: seq<Violation>)
    ensures out == CheckPayment(errs, p, o.orderUID)
  {
    ghost var cs := PaymentChecks(p, o.orderUID);
    PaymentChecksListed(p, o.orderUID);
    out := errs;
    if Missing(p.transaction) { out := out + [PaymentViolation(TransactionGiven)]; }
    assert out == Collect(errs, cs, 1);
    if p.transaction != o.orderUID { out := out + [PaymentViolation(TransactionMatches)]; }
    assert out == Collect(errs, cs, 2);
    if Missing(p.currency) { out := out + [PaymentViolation(CurrencyGiven)]; }
    assert out == Collect(errs, cs, 3);
    if Missing(p.provider) { out := out + [PaymentViolation(ProviderGiven)]; }
    assert out == Collect(errs, cs, 4);
    if p.paymentDT <= 0 { out := out + [PaymentViolation(PaymentDTPositive)]; }
    assert out == Collect(errs, cs, 5);
    if p.amount < 0 { out := out + [PaymentViolation(AmountNonNegative)]; }
    assert out == Collect(errs, cs, 6);
    if p.deliveryCost < 0 { out := out + [PaymentViolation(DeliveryCostNonNegative)]; }
    assert out == Collect(errs, cs, 7);
    if p.goodsTotal < 0 { out := out + [PaymentViolation(GoodsTotalNonNegative)]; }
    assert out == Collect(errs, cs, 8);
    if p.customFee < 0 { out := out + [PaymentViolation(CustomFeeNonNegative)]; }
  }

  /** One iteration of the loop in `validateItems`: the checks of the item at index `i`. */
  method ValidateItem(errs: seq<Violation>, i: nat, it: Item, trackNumber: string) returns (out: seq<Violation>)
    ensures out == CheckItem(errs, i, it, trackNumber)
  {
    ghost var cs := ItemChecks(i, it, trackNumber);
    out := errs;
    if it.chrtID <= 0 { out := out + [ItemViolation(i, ChrtIDPositive)]; }
    assert out == Collect(errs, cs, 1);
    if Missing(it.trackNumber) { out := out + [ItemViolation(i, ItemTrackGiven)]; }
    assert out == Collect(errs, cs, 2);
    if it.price < 0 { out := out + [ItemViolation(i, PriceNonNegative)]; }
    assert out == Collect(errs, cs, 3);
    if Missing(it.rid) { out := out + [ItemViolation(i, RidGiven)]; }
    assert out == Collect(errs, cs, 4);
    if Missing(it.name) { out := out + [ItemViolation(i, ItemNameGiven)]; }
    assert out == Collect(errs, cs, 5);
    if it.sale < 0 { out := out + [ItemViolation(i, SaleNonNegative)]; }
    assert out == Collect(errs, cs, 6);
    if it.totalPrice < 0 { out := out + [ItemViolation(i, TotalPriceNonNegative)]; }
    assert out == Collect(errs, cs, 7);
    if it.nmID <= 0 { out := out + [ItemViolation(i, NmIDPositive)]; }
    assert out == Collect(errs, cs, 8);
    if it.trackNumber != trackNumber { out := out + [ItemViolation(i, ItemTrackMatches)]; }
  }

  /** `validateItems`: the loop over the items, the index of each in its messages. */
  method ValidateItems(errs: seq<Violation>, o: Order) returns (out: seq<Violation>)
    ensures out == errs + CheckItems(o.items, o.trackNumber)
  {
    out := errs;
    var i := 0;
    while i < |o.items|
      invariant 0 <= i <= |o.items|
      invariant out == errs + CheckItems(o.items[..i], o.trackNumber)
    {
      ghost var done := CheckItems(o.items[..i], o.trackNumber);
      ghost var reports := ItemReports(o.items[..i + 1], o.trackNumber);
      assert reports[..i] == ItemReports(o.items[..i], o.trackNumber);
      out := ValidateItem(out, i, o.items[i], o.trackNumber);
      CollectAppend(errs + done, ItemChecks(i, o.items[i], o.trackNumber), ItemRuleCount);
      assert out == errs + (done + reports[i]);
      i := i + 1;
    }
    assert o.items[..i] == o.items;
  }

  /** `Validate`: run the four checks in order, then join what they reported. */
  method Validate(o: Order, validEmail: string -> bool) returns (r: Outcome<Error>)
    ensures r == Verdict(o, validEmail)
  {
    var errs: seq<Violation> := [];
    errs := ValidateOrder(errs, o);
    CollectAppend(errs, DeliveryChecks(o.delivery, validEmail), DeliveryRuleCount);
    errs := ValidateDelivery(errs, o.delivery, validEmail);
    CollectAppend(errs, PaymentChecks(o.payment, o.orderUID), PaymentRuleCount);
    errs := ValidatePayment(errs, o.payment, o);
    errs := ValidateItems(errs, o);
    if |errs| > 0 {
      r := Fail(Error(BadMessage, BadMessageText(errs)));
    } else {
      r := Pass;
    }
  }

  // ---------------------------------------------------------------------
  // What the rules mean

  /** A required text field is reported exactly when it is empty or all white space. */
  lemma MissingIff(s: string)
    ensures Missing(s) <==> IsBlank(s)
  {
    TrimSpaceEmptyIff(s);
  }

  predicate OrderFieldsConform(o: Order) {
    !IsBlank(o.orderUID) && !IsBlank(o.trackNumber) && !IsBlank(o.entry)
    && !IsBlank(o.deliveryService) && !o.dateCreated.IsZero()
  }

  predicate DeliveryConforms(d: Delivery, validEmail: string -> bool) {
    !IsBlank(d.name) && !IsBlank(d.phone) && !IsBlank(d.zip) && !IsBlank(d.city)
    && !IsBlank(d.address) && !IsBlank(d.region) && !IsBlank(d.email) && validEmail(d.email)
  }

  predicate PaymentConforms(p: Payment, orderUID: string) {
    !IsBlank(p.transaction) && p.transaction == orderUID && !IsBlank(p.currency)
    && !IsBlank(p.provider) && p.paymentDT > 0 && p.amount >= 0 && p.deliveryCost >= 0
    && p.goodsTotal >= 0 && p.customFee >= 0
  }

  predicate ItemConforms(it: Item, trackNumber: string) {
    it.chrtID > 0 && !IsBlank(it.trackNumber) && it.price >= 0 && !IsBlank(it.rid)
    && !IsBlank(it.name) && it.sale >= 0 && it.totalPrice >= 0 && it.nmID > 0
    && it.trackNumber == trackNumber
  }

  /** An order every rule accepts. */
  predicate Conforms(o: Order, validEmail: string -> bool) {
    OrderFieldsConform(o) && DeliveryConforms(o.delivery, validEmail)
    && PaymentConforms(o.payment, o.orderUID)
    && forall k :: 0 <= k < |o.items| ==> ItemConforms(o.items[k], o.trackNumber)
  }

  /**
   * `validateOrder` reports exactly the rules the inputs break, each once, and
   * nothing when they conform.
   */
  lemma OrderReport(o: Order)
    ensures forall r :: OrderViolation(r) in CheckOrderFields([], o) <==> OrderBreaks(r, o)
    ensures forall v :: v in CheckOrderFields([], o) ==> exists r :: OrderBreaks(r, o) && v == OrderViolation(r)
    ensures CheckOrderFields([], o) == [] <==> OrderFieldsConform(o)
  {
    var cs := OrderChecks(o);
    CollectMembers(cs, OrderRuleCount);
    OrderChecksByRule(o);
    MissingIff(o.orderUID);
    MissingIff(o.trackNumber);
    MissingIff(o.entry);
    MissingIff(o.deliveryService);
    assert OrderFieldsConform(o) <==>
      !OrderBreaks(UIDGiven, o) && !OrderBreaks(TrackGiven, o) && !OrderBreaks(EntryGiven, o)
      && !OrderBreaks(ServiceGiven, o) && !OrderBreaks(CreatedSet, o);
  }

  /** The delivery violations reported are the rules broken. */
  lemma DeliveryViolationsIff(d: Delivery, validEmail: string -> bool)
    ensures forall r :: DeliveryViolation(r) in CheckDelivery([], d, validEmail) <==> DeliveryBreaks(r, d, validEmail)
    ensures forall v :: v in CheckDelivery([], d, validEmail) ==> exists r :: DeliveryBreaks(r, d, validEmail) && v == DeliveryViolation(r)
  {
    CollectMembers(DeliveryChecks(d, validEmail), DeliveryRuleCount);
    DeliveryChecksByRule(d, validEmail);
  }

  /**
   * `validateDelivery` reports exactly the rules the inputs break, each once, and
   * nothing when they conform.
   */
  lemma DeliveryReport(d: Delivery, validEmail: string -> bool)
    ensures forall r :: DeliveryViolation(r) in CheckDelivery([], d, validEmail) <==> DeliveryBreaks(r, d, validEmail)
    ensures forall v :: v in CheckDelivery([], d, validEmail) ==> exists r :: DeliveryBreaks(r, d, validEmail) && v == DeliveryViolation(r)
    ensures CheckDelivery([], d, validEmail) == [] <==> DeliveryConforms(d, validEmail)
  {
    DeliveryViolationsIff(d, validEmail);
    var errs := CheckDelivery([], d, validEmail);
    if errs != [] {
      assert errs[0] in errs;
    }
    MissingIff(d.name);
    MissingIff(d.phone);
    MissingIff(d.zip);
    MissingIff(d.city);
    MissingIff(d.address);
    MissingIff(d.region);
    MissingIff(d.email);
    assert DeliveryConforms(d, validEmail) <==>
      !DeliveryBreaks(NameGiven, d, validEmail) && !DeliveryBreaks(PhoneGiven, d, validEmail)
      && !DeliveryBreaks(ZipGiven, d, validEmail) && !DeliveryBreaks(CityGiven, d, validEmail)
      && !DeliveryBreaks(AddressGiven, d, validEmail) && !DeliveryBreaks(RegionGiven, d, validEmail)
      && !DeliveryBreaks(EmailGiven, d, validEmail)
      && !DeliveryBreaks(EmailWellFormed, d, validEmail);
  }

  /**
   * `validatePayment` reports exactly the rules the inputs break, each once, and
   * nothing when they conform.
   */
  lemma PaymentReport(p: Payment, orderUID: string)
    ensures forall r :: PaymentViolation(r) in CheckPayment([], p, orderUID) <==> PaymentBreaks(r, p, orderUID)
    ensures forall v :: v in CheckPayment([], p, orderUID) ==> exists r :: PaymentBreaks(r, p, orderUID) && v == PaymentViolation(r)
    ensures CheckPayment([], p, orderUID) == [] <==> PaymentConforms(p, orderUID)
  {
    var cs := PaymentChecks(p, orderUID);
    CollectMembers(cs, PaymentRuleCount);
    PaymentChecksByRule(p, orderUID);
    MissingIff(p.transaction);
    MissingIff(p.currency);
    MissingIff(p.provider);
    assert PaymentConforms(p, orderUID) <==>
      !PaymentBreaks(TransactionGiven, p, orderUID)
      && !PaymentBreaks(TransactionMatches, p, orderUID)
      && !PaymentBreaks(CurrencyGiven, p, orderUID) && !PaymentBreaks(ProviderGiven, p, orderUID)
      && !PaymentBreaks(PaymentDTPositive, p, orderUID)
      && !PaymentBreaks(AmountNonNegative, p, orderUID)
      && !PaymentBreaks(DeliveryCostNonNegative, p, orderUID)
      && !PaymentBreaks(GoodsTotalNonNegative, p, orderUID)
      && !PaymentBreaks(CustomFeeNonNegative, p, orderUID);
  }

  /** The violations reported for the item at index `i` are the rules it breaks. */
  lemma ItemViolationsIff(i: nat, it: Item, trackNumber: string)
    ensures forall r :: ItemViolation(i, r) in CheckItem([], i, it, trackNumber) <==> ItemBreaks(r, it, trackNumber)
    ensures forall v :: v in CheckItem([], i, it, trackNumber) ==> exists r :: ItemBreaks(r, it, trackNumber) && v == ItemViolation(i, r)
  {
    CollectMembers(ItemChecks(i, it, trackNumber), ItemRuleCount);
    ItemChecksByRule(i, it, trackNumber);
  }

  /**
   * `validateItems` reports exactly the rules the inputs break, each once, and
   * nothing when they conform.
   */
  lemma ItemReport(i: nat, it: Item, trackNumber: string)
    ensures forall r :: ItemViolation(i, r) in CheckItem([], i, it, trackNumber) <==> ItemBreaks(r, it, trackNumber)
    ensures forall v :: v in CheckItem([], i, it, trackNumber) ==> exists r :: ItemBreaks(r, it, trackNumber) && v == ItemViolation(i, r)
    ensures CheckItem([], i, it, trackNumber) == [] <==> ItemConforms(it, trackNumber)
  {
    ItemViolationsIff(i, it, trackNumber);
    var errs := CheckItem([], i, it, trackNumber);
    if errs != [] {
      assert errs[0] in errs;
    }
    MissingIff(it.trackNumber);
    MissingIff(it.rid);
    MissingIff(it.name);
    assert ItemConforms(it, trackNumber) <==>
      !ItemBreaks(ChrtIDPositive, it, trackNumber) && !ItemBreaks(ItemTrackGiven, it, trackNumber)
      && !ItemBreaks(PriceNonNegative, it, trackNumber) && !ItemBreaks(RidGiven, it, trackNumber)
      && !ItemBreaks(ItemNameGiven, it, trackNumber)
      && !ItemBreaks(SaleNonNegative, it, trackNumber)
      && !ItemBreaks(TotalPriceNonNegative, it, trackNumber)
      && !ItemBreaks(NmIDPositive, it, trackNumber)
      && !ItemBreaks(ItemTrackMatches, it, trackNumber);
  }

  /** A missing e-mail is reported as missing only; a malformed one as malformed only. */
  lemma EmailOutcomes(d: Delivery, validEmail: string -> bool)
    ensures DeliveryViolation(EmailGiven) in CheckDelivery([], d, validEmail) <==> IsBlank(d.email)
    ensures DeliveryViolation(EmailWellFormed) in CheckDelivery([], d, validEmail) <==>
      !IsBlank(d.email) && !validEmail(d.email)
    ensures !(DeliveryViolation(EmailGiven) in CheckDelivery([], d, validEmail)
              && DeliveryViolation(EmailWellFormed) in CheckDelivery([], d, validEmail))
  {
    DeliveryReport(d, validEmail);
    MissingIff(d.email);
  }

  /** The transaction is compared with the order UID whether or not it is blank. */
  lemma TransactionMismatchIndependent(p: Payment, orderUID: string)
    ensures PaymentViolation(TransactionMatches) in CheckPayment([], p, orderUID) <==> p.transaction != orderUID
    ensures IsBlank(p.transaction) && p.transaction != orderUID ==>
      PaymentViolation(TransactionGiven) in CheckPayment([], p, orderUID)
      && PaymentViolation(TransactionMatches) in CheckPayment([], p, orderUID)
  {
    PaymentReport(p, orderUID);
    MissingIff(p.transaction);
  }

  // ---------------------------------------------------------------------
  // All items, and the whole order

  /** A violation of the flattened list is one of one of the lists. */
  lemma {:induction false} FlattenMembers(ss: seq<seq<Violation>>)
    ensures forall v :: v in Flatten(ss) <==> exists k :: 0 <= k < |ss| && v in ss[k]
    ensures Flatten(ss) == [] <==> forall k :: 0 <= k < |ss| ==> ss[k] == []
  {
    if ss != [] {
      var init := ss[..|ss| - 1];
      FlattenMembers(init);
      forall v | v in Flatten(ss)
        ensures exists k :: 0 <= k < |ss| && v in ss[k]
      {
        if v in Flatten(init) {
          var k :| 0 <= k < |init| && v in init[k];
          assert init[k] == ss[k];
        }
      }
      forall v, k | 0 <= k < |ss| && v in ss[k]
        ensures v in Flatten(ss)
      {
        if k < |init| {
          assert init[k] == ss[k];
        }
      }
      assert (forall k :: 0 <= k < |ss| ==> ss[k] == [])
        <==> (forall k :: 0 <= k < |init| ==> init[k] == []) && ss[|ss| - 1] == [];
    }
  }

  /** The flattened lists come out in order. */
  lemma {:induction false} FlattenPrefix(ss: seq<seq<Violation>>, n: nat)
    requires n <= |ss|
    ensures Flatten(ss[..n]) <= Flatten(ss)
    decreases |ss| - n
  {
    if n < |ss| {
      FlattenPrefix(ss, n + 1);
      var upto := ss[..n + 1];
      assert upto[..n] == ss[..n];
    } else {
      assert ss[..n] == ss;
    }
  }

  /**
   * `validateItems` reports, for every item, exactly the rules that item
   * breaks under its own index, and nothing when every item conforms.
   */
  lemma ItemsReport(items: seq<Item>, trackNumber: string)
    ensures forall v :: v in CheckItems(items, trackNumber) <==>
      v.ItemViolation? && v.index < |items| && ItemBreaks(v.itemRule, items[v.index], trackNumber)
    ensures CheckItems(items, trackNumber) == [] <==>
      forall k :: 0 <= k < |items| ==> ItemConforms(items[k], trackNumber)
  {
    var reports := ItemReports(items, trackNumber);
    FlattenMembers(reports);
    forall k | 0 <= k < |items|
      ensures ItemConforms(items[k], trackNumber) <==> reports[k] == []
      ensures forall v: Violation :: v in reports[k] <==> v.ItemViolation? && v.index == k && ItemBreaks(v.itemRule, items[k], trackNumber)
    {
      ItemReport(k, items[k], trackNumber);
    }
  }

  /**
   * No short-circuit across items: the reports of item `k` follow those of
   * every earlier item and precede those of every later one.
   */
  lemma ItemsInIndexOrder(items: seq<Item>, trackNumber: string, k: nat)
    requires k < |items|
    ensures CheckItems(items[..k], trackNumber) + CheckItem([], k, items[k], trackNumber)
      <= CheckItems(items, trackNumber)
  {
    var reports := ItemReports(items, trackNumber);
    FlattenPrefix(reports, k + 1);
    var upto := reports[..k + 1];
    assert upto[..k] == ItemReports(items[..k], trackNumber);
  }

  /** The joined text names every reported violation. */
  lemma BadMessageTextNames(errs: seq<Violation>, v: Violation)
    requires v in errs
    ensures Contains(BadMessageText(errs), MessageOf(v))
  {
    var texts := Messages(errs);
    var text := Join(texts, "; ");
    var k :| 0 <= k < |errs| && errs[k] == v;
    JoinContains(texts, "; ", k);
    ContainsAfter("bad_message: ", text, MessageOf(v));
  }

  /**
   * `Validate` returns nil exactly for conforming orders; otherwise its error
   * wraps `ErrBadMessage` and its text names every violated rule.
   */
  lemma ValidatePassesIff(o: Order, validEmail: string -> bool)
    ensures Verdict(o, validEmail) == Pass <==> Conforms(o, validEmail)
    ensures Verdict(o, validEmail).Fail? ==> Verdict(o, validEmail).error.kind == BadMessage
    ensures Verdict(o, validEmail).Fail? ==>
      forall v :: v in Violations(o, validEmail) ==> Contains(Verdict(o, validEmail).error.text, MessageOf(v))
  {
    OrderReport(o);
    DeliveryReport(o.delivery, validEmail);
    PaymentReport(o.payment, o.orderUID);
    ItemsReport(o.items, o.trackNumber);
    forall v | v in Violations(o, validEmail)
      ensures Contains(BadMessageText(Violations(o, validEmail)), MessageOf(v))
    {
      BadMessageTextNames(Violations(o, validEmail), v);
    }
  }

  /** A rule broken by any item fails the whole order, and its message, under that item's index, is in the text. */
  lemma ItemFaultNamed(o: Order, validEmail: string -> bool, k: nat, r: ItemRule)
    requires k < |o.items| && ItemBreaks(r, o.items[k], o.trackNumber)
    ensures Verdict(o, validEmail).Fail? && Verdict(o, validEmail).error.kind == BadMessage
    ensures Contains(Verdict(o, validEmail).error.text, ItemPrefix(k) + ItemMessage(r))
  {
    ItemsReport(o.items, o.trackNumber);
    var v := ItemViolation(k, r);
    assert v in Violations(o, validEmail);
    BadMessageTextNames(Violations(o, validEmail), v);
  }
}
