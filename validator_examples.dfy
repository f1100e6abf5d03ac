/**
 * The validator applied to the sample order of the validator's tests: that
 * order passes, and a second, faulty item is reported under index 1 while
 * the first item is accepted.
 */
module ValidatorExamples {
  import opened Wrappers
  import opened Errors
  import opened Text
  import opened Orders
  import opened Validator

  /** The sample order; `created` stands for `time.Now()`. */
  function SampleOrder(created: Time): Order {
    Order(
      "b563feb7b2b84b6test", "WBILMTESTTRACK", "WBIL", SampleDelivery(), SamplePayment(),
      [SampleItem()], "en", "", "test", "meest", "9", 99, created, "1")
  }

  function SampleDelivery(): Delivery {
    Delivery("Test Testov", "+9720000000", "2639809", "Kiryat Mozkin", "Ploshad Mira 15",
             "Kraiot", "test@gmail.com")
  }

  function SamplePayment(): Payment {
    Payment("b563feb7b2b84b6test", "req123", "USD", "wbpay", 1817, 1637907727, "alpha",
            1500, 317, 0)
  }

  function SampleItem(): Item {
    Item(9934930, "WBILMTESTTRACK", 453, "ab4219087a764ae0btest", "Mascaras", 30, "0", 317,
         2389212, "Vivienne Sabo", 202)
  }

  /** The second item of the multiple-items test: no chart id and someone else's track number. */
  function FaultyItem(): Item {
    Item(0, "WRONG_TRACK", 100, "rid2", "Item 2", 0, "", 100, 123456, "Brand", 202)
  }

  /** A string whose first character is not white space is not blank. */
  lemma NotBlank(s: string)
    requires |s| > 0 && !IsSpace(s[0])
    ensures !IsBlank(s)
  {
  }

  lemma SampleItemConforms()
    ensures ItemConforms(SampleItem(), "WBILMTESTTRACK")
  {
    NotBlank("WBILMTESTTRACK");
    NotBlank("ab4219087a764ae0btest");
    NotBlank("Mascaras");
  }

  lemma SampleOrderFieldsConform(created: Time)
    requires !created.IsZero()
    ensures OrderFieldsConform(SampleOrder(created))
  {
    var o := SampleOrder(created);
    NotBlank(o.orderUID);
    NotBlank(o.trackNumber);
    NotBlank(o.entry);
    NotBlank(o.deliveryService);
  }

  lemma SampleDeliveryConforms(validEmail: string -> bool)
    requires validEmail("test@gmail.com")
    ensures DeliveryConforms(SampleDelivery(), validEmail)
  {
    var d := SampleDelivery();
    NotBlank(d.name);
    NotBlank(d.phone);
    NotBlank(d.zip);
    NotBlank(d.city);
    NotBlank(d.address);
    NotBlank(d.region);
    NotBlank(d.email);
  }

  lemma SamplePaymentConforms()
    ensures PaymentConforms(SamplePayment(), "b563feb7b2b84b6test")
  {
    var p := SamplePayment();
    NotBlank(p.transaction);
    NotBlank(p.currency);
    NotBlank(p.provider);
  }

  /** The sample order passes when its e-mail address parses and its creation time is set. */
  lemma SampleOrderPasses(created: Time, validEmail: string -> bool)
    requires !created.IsZero() && validEmail("test@gmail.com")
    ensures Verdict(SampleOrder(created), validEmail) == Pass
  {
    var o := SampleOrder(created);
    SampleOrderFieldsConform(created);
    SampleDeliveryConforms(validEmail);
    SamplePaymentConforms();
    SampleItemConforms();
    ValidatePassesIff(o, validEmail);
  }

  /** Which of the item rules the faulty item breaks, in the order `validateItems` checks them. */
  lemma FaultyItemChecks(i: nat)
    ensures var cs := ItemChecks(i, FaultyItem(), "WBILMTESTTRACK");
      && cs[0] == Check(true, ItemViolation(i, ChrtIDPositive))
      && cs[8] == Check(true, ItemViolation(i, ItemTrackMatches))
      && !cs[1].broken && !cs[2].broken && !cs[3].broken && !cs[4].broken
      && !cs[5].broken && !cs[6].broken && !cs[7].broken
  {
    var it := FaultyItem();
    ItemChecksListed(i, it, "WBILMTESTTRACK");
    MissingIff(it.trackNumber);
    MissingIff(it.rid);
    MissingIff(it.name);
    NotBlank(it.trackNumber);
    NotBlank(it.rid);
    NotBlank(it.name);
  }

  /** The faulty item breaks exactly two rules: its chart id and its track number. */
  lemma FaultyItemReport(i: nat)
    ensures CheckItem([], i, FaultyItem(), "WBILMTESTTRACK")
      == [ItemViolation(i, ChrtIDPositive), ItemViolation(i, ItemTrackMatches)]
  {
    var cs := ItemChecks(i, FaultyItem(), "WBILMTESTTRACK");
    FaultyItemChecks(i);
    var chrt := [ItemViolation(i, ChrtIDPositive)];
    assert Collect([], cs, 1) == chrt;
    assert Collect([], cs, 2) == chrt;
    assert Collect([], cs, 3) == chrt;
    assert Collect([], cs, 4) == chrt;
    assert Collect([], cs, 5) == chrt;
    assert Collect([], cs, 6) == chrt;
    assert Collect([], cs, 7) == chrt;
    assert Collect([], cs, 8) == chrt;
  }

  /** The prefix of item 1, and its chart-id message as the multiple-items test expects it. */
  lemma FaultyItemMessages()
    ensures ItemPrefix(1) == "items[1]"
    ensures ItemPrefix(1) + ItemMessage(ChrtIDPositive) == "items[1]: chrt_id must be > 0"
  {
    PrefixOfItemOne();
    assert ItemMessage(ChrtIDPositive) == ": chrt_id must be > 0";
    ChrtMessageSpelled();
  }

  /** The two literals the chart-id message is built from, joined. */
  lemma ChrtMessageSpelled()
    ensures "items[1]" + ": chrt_id must be > 0" == "items[1]: chrt_id must be > 0"
  {
  }

  /** The index 1 is printed as the single digit `1`. */
  lemma PrefixOfItemOne()
    ensures ItemPrefix(1) == "items[1]"
  {
    assert Decimal.DigitChar(1) == '1';
    assert Decimal.FormatInt(1) == "1";
  }

  /**
   * An order with the sample item followed by the faulty one (the sample
   * order of the multiple-items test, whatever its other fields) fails with
   * `bad_message`, and the text names both faults of item 1 in the source's
   * wording.
   */
  lemma SecondItemReported(o: Order, validEmail: string -> bool)
    requires o.items == [SampleItem(), FaultyItem()] && o.trackNumber == "WBILMTESTTRACK"
    ensures Verdict(o, validEmail).Fail? && Verdict(o, validEmail).error.kind == BadMessage
    ensures Contains(Verdict(o, validEmail).error.text, "items[1]: chrt_id must be > 0")
    ensures Contains(Verdict(o, validEmail).error.text, "items[1]" + ItemMessage(ItemTrackMatches))
  {
    FaultyItemReport(1);
    ItemFaultNamed(o, validEmail, 1, ChrtIDPositive);
    ItemFaultNamed(o, validEmail, 1, ItemTrackMatches);
    FaultyItemMessages();
  }
}
