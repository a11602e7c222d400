/** The checkout aggregate of saleor/checkout/models.py: a checkout, its lines,
    gift cards and payments, the read-only helpers over them, and the cached
    country that is corrected from the checkout's addresses. */
module CheckoutModels {
  import opened Wrappers
  import Account

  /** A weight in one fixed unit; `zero_weight()` is 0. */
  type Weight = int

  const ZeroWeight: Weight := 0

  /** An ISO 3166 country code; the empty string is a blank country, which
      Python treats as false. Codes are compared as given, without the
      normalisation that `Country(...)` applies. */
  type CountryCode = string

  /** An amount of money in a currency. */
  datatype Money = Money(amount: int, currency: string)

  /** `zero_money(currency)`. */
  function ZeroMoney(currency: string): (m: Money)
    ensures m.amount == 0 && m.currency == currency
  {
    Money(0, currency)
  }

  /** A product variant: its primary key, the weight that
      `variant.get_weight()` returns for it (that method's own fallback rules
      are not modelled), and whether its product type needs shipping. */
  datatype Variant = Variant(pk: int, weight: Weight, isShippingRequired: bool)

  /** Line quantities are validated to be at least 1. */
  type Quantity = q: int | q >= 1 witness 1

  /** The JSON payload of a line (a personalisation, for instance). */
  type LineData = map<string, string>

  datatype CheckoutLine = CheckoutLine(variant: Variant, quantity: Quantity, data: LineData)

  /** A gift card attached to the checkout, with its current balance. */
  datatype GiftCard = GiftCard(currentBalanceAmount: int)

  datatype Payment = Payment(pk: int, isActive: bool)

  /** An address; only its country is read here. */
  datatype Address = Address(country: CountryCode)

  /** One call of `save(update_fields=...)`: the columns written and the
      country stored by the write. */
  datatype Save = Save(updateFields: seq<string>, country: CountryCode)

  // ---------------------------------------------------------------------
  // Lines

  /** Django model equality for saved instances: two variants are equal when
      their primary keys are. (Unsaved instances, whose pk is None, compare by
      identity; every variant here is a saved row.) */
  predicate SameVariant(a: Variant, b: Variant)
  {
    a.pk == b.pk
  }

  /** `CheckoutLine.__eq__`: only the variant and the quantity are compared;
      the data payload and the line's identity play no part. */
  predicate LineEq(a: CheckoutLine, b: CheckoutLine)
    ensures LineEq(a, b) <==> (a.variant.pk, a.quantity) == (b.variant.pk, b.quantity)
  {
    SameVariant(a.variant, b.variant) && a.quantity == b.quantity
  }

  /** `CheckoutLine.__ne__`: the negation of `__eq__`. */
  predicate LineNe(a: CheckoutLine, b: CheckoutLine)
    ensures LineNe(a, b) <==> !LineEq(a, b)
  {
    !LineEq(a, b)
  }

  /** The columns of the uniqueness constraint of a line, within its checkout. */
  function UniqueKey(l: CheckoutLine): (int, LineData)
  {
    (l.variant.pk, l.data)
  }

  /** `CheckoutLine.is_shipping_required`: delegates to the variant. */
  predicate LineIsShippingRequired(l: CheckoutLine)
    ensures LineIsShippingRequired(l) <==> l.variant.isShippingRequired
  {
    l.variant.isShippingRequired
  }

  /** Replacing a line's data payload never changes what it is equal to. */
  lemma LineEqIgnoresData(a: CheckoutLine, b: CheckoutLine, d: LineData)
    ensures LineEq(a.(data := d), b) <==> LineEq(a, b)
    ensures LineEq(a, a.(data := d))
  {
  }

  /** Line equality is an equivalence relation. */
  lemma LineEqIsEquivalence(a: CheckoutLine, b: CheckoutLine, c: CheckoutLine)
    ensures LineEq(a, a)
    ensures LineEq(a, b) ==> LineEq(b, a)
    ensures LineEq(a, b) && LineEq(b, c) ==> LineEq(a, c)
  {
  }

  /** Two lines that the uniqueness constraint keeps apart (same variant,
      different data) still compare equal when their quantities agree. */
  lemma EqualLinesMayBeDistinctRows(a: CheckoutLine, b: CheckoutLine)
    requires SameVariant(a.variant, b.variant) && a.quantity == b.quantity
    requires a.data != b.data
    ensures UniqueKey(a) != UniqueKey(b)
    ensures LineEq(a, b) && !LineNe(a, b)
  {
  }

  // ---------------------------------------------------------------------
  // Read-only helpers of Checkout

  /** `Checkout.get_customer_email`: the user's address if there is a user. */
  function CustomerEmail(user: Option<Account.User>, email: string): (r: string)
    ensures user.Some? ==> r == user.value.email
    ensures user.None? ==> r == email
  {
    if user.Some? then user.value.email else email
  }

  /** `Checkout.is_shipping_required`: `any` over the lines. */
  function AnyLineRequiresShipping(lines: seq<CheckoutLine>): (r: bool)
    ensures r <==> exists i :: 0 <= i < |lines| && LineIsShippingRequired(lines[i])
  {
    if lines == [] then false
    else if LineIsShippingRequired(lines[0]) then true
    else
      var rest := AnyLineRequiresShipping(lines[1..]);
      assert forall i :: 1 <= i < |lines| ==> lines[i] == lines[1..][i - 1];
      rest
  }

  /** The sum of the current balances, a reference definition. */
  function SumBalances(cards: seq<GiftCard>): int
  {
    if cards == [] then 0 else cards[0].currentBalanceAmount + SumBalances(cards[1..])
  }

  /** `aggregate(Sum("current_balance_amount"))`: SQL's SUM, which is NULL
      over no rows. */
  function AggregateBalance(cards: seq<GiftCard>): (r: Option<int>)
    ensures r.None? <==> cards == []
    ensures r.Some? ==> r.value == SumBalances(cards)
  {
    if cards == [] then None else Some(SumBalances(cards))
  }

  /** `Checkout.get_total_gift_cards_balance`: the balances are added as plain
      amounts and the total is expressed in the checkout's currency. */
  function TotalGiftCardsBalance(cards: seq<GiftCard>, currency: string): (m: Money)
    ensures m.currency == currency
    ensures m.amount == SumBalances(cards)
    ensures cards == [] ==> m == ZeroMoney(currency)
  {
    match AggregateBalance(cards)
    case None => ZeroMoney(currency)
    case Some(balance) => Money(balance, currency)
  }

  lemma {:induction false} SumBalancesAppend(a: seq<GiftCard>, b: seq<GiftCard>)
    ensures SumBalances(a + b) == SumBalances(a) + SumBalances(b)
  {
    if a == [] {
      assert a + b == b;
    } else {
      assert (a + b)[1..] == a[1..] + b;
      SumBalancesAppend(a[1..], b);
    }
  }

  /** Removing the card at `k` takes exactly its balance off the sum. */
  lemma {:induction false} SumBalancesRemove(s: seq<GiftCard>, k: nat)
    requires k < |s|
    ensures SumBalances(s) == s[k].currentBalanceAmount + SumBalances(s[..k] + s[k + 1..])
  {
    if k > 0 {
      SumBalancesRemove(s[1..], k - 1);
      assert s[1..][..k - 1] + s[1..][k..] == (s[..k] + s[k + 1..])[1..];
    } else {
      assert s[..0] + s[1..] == s[1..];
    }
  }

  /** Gift cards form a set on the checkout: the total does not depend on the
      order in which the database returns them. */
  lemma {:induction false} SumBalancesPermutation(a: seq<GiftCard>, b: seq<GiftCard>)
    requires multiset(a) == multiset(b)
    ensures SumBalances(a) == SumBalances(b)
  {
    if a == [] {
      assert |b| == |multiset(b)|;
    } else {
      assert a[0] in multiset(b);
      var k :| 0 <= k < |b| && b[k] == a[0];
      var rest := b[..k] + b[k + 1..];
      MultisetWithout(b, k);
      assert a == [a[0]] + a[1..];
      assert multiset(a[1..]) + multiset{a[0]} == multiset(rest) + multiset{a[0]};
      assert multiset(a[1..]) == multiset(a[1..]) + multiset{a[0]} - multiset{a[0]};
      assert multiset(rest) == multiset(rest) + multiset{a[0]} - multiset{a[0]};
      SumBalancesPermutation(a[1..], rest);
      SumBalancesRemove(b, k);
    }
  }

  /** Taking out the element at `k` removes one occurrence from the multiset. */
  lemma MultisetWithout<T>(s: seq<T>, k: nat)
    requires k < |s|
    ensures multiset(s[..k] + s[k + 1..]) + multiset{s[k]} == multiset(s)
  {
    assert s == s[..k] + [s[k]] + s[k + 1..];
  }

  /** What one line weighs: the variant's weight times the quantity. */
  function LineWeight(l: CheckoutLine): Weight
  {
    l.variant.weight * l.quantity
  }

  /** The weight of a sequence of lines, a reference definition that adds
      the lines in order. */
  function TotalWeight(lines: seq<CheckoutLine>): Weight
  {
    if lines == [] then ZeroWeight
    else TotalWeight(lines[..|lines| - 1]) + LineWeight(lines[|lines| - 1])
  }

  lemma {:induction false} TotalWeightAppend(a: seq<CheckoutLine>, b: seq<CheckoutLine>)
    ensures TotalWeight(a + b) == TotalWeight(a) + TotalWeight(b)
  {
    if b == [] {
      assert a + b == a;
    } else {
      assert (a + b)[..|a + b| - 1] == a + b[..|b| - 1];
      TotalWeightAppend(a, b[..|b| - 1]);
    }
  }

  /** With weights that are not negative, the total is at least every single
      line's weight. */
  lemma {:induction false} TotalWeightBoundsLines(lines: seq<CheckoutLine>, k: nat)
    requires forall i :: 0 <= i < |lines| ==> lines[i].variant.weight >= 0
    requires k < |lines|
    ensures LineWeight(lines[k]) <= TotalWeight(lines)
  {
    if k < |lines| - 1 {
      TotalWeightBoundsLines(lines[..|lines| - 1], k);
    } else {
      TotalWeightNonNegative(lines[..|lines| - 1]);
    }
  }

  lemma {:induction false} TotalWeightNonNegative(lines: seq<CheckoutLine>)
    requires forall i :: 0 <= i < |lines| ==> lines[i].variant.weight >= 0
    ensures TotalWeight(lines) >= 0
  {
    if lines != [] {
      TotalWeightNonNegative(lines[..|lines| - 1]);
    }
  }

  /** `Checkout.get_line`: the first line whose variant has `variant`'s pk. */
  function FirstLineForVariant(lines: seq<CheckoutLine>, variant: Variant): (r: Option<CheckoutLine>)
    ensures r.None? <==> forall i :: 0 <= i < |lines| ==> lines[i].variant.pk != variant.pk
    ensures r.Some? ==>
      exists i :: 0 <= i < |lines| && lines[i] == r.value && lines[i].variant.pk == variant.pk &&
        forall j :: 0 <= j < i ==> lines[j].variant.pk != variant.pk
  {
    if lines == [] then None
    else if lines[0].variant.pk == variant.pk then Some(lines[0])
    else
      var r := FirstLineForVariant(lines[1..], variant);
      assert forall i :: 1 <= i < |lines| ==> lines[i] == lines[1..][i - 1];
      r
  }

  /** `Checkout.get_last_active_payment`: `max` over the active payments
      keyed by pk, which keeps the first of equal keys. */
  function LastActivePayment(payments: seq<Payment>): (r: Option<Payment>)
    ensures r.None? <==> forall i :: 0 <= i < |payments| ==> !payments[i].isActive
    ensures r.Some? ==> r.value.isActive
    ensures r.Some? ==> forall i :: 0 <= i < |payments| && payments[i].isActive ==> payments[i].pk <= r.value.pk
    ensures r.Some? ==>
      exists i :: 0 <= i < |payments| && payments[i] == r.value &&
        forall j :: 0 <= j < i && payments[j].isActive ==> payments[j].pk < r.value.pk
  {
    if payments == [] then None
    else
      var init := payments[..|payments| - 1];
      var last := payments[|payments| - 1];
      var best := LastActivePayment(init);
      assert forall i :: 0 <= i < |init| ==> init[i] == payments[i];
      if last.isActive && (best.None? || last.pk > best.value.pk) then Some(last) else best
  }

  // ---------------------------------------------------------------------
  // Country selection

  /** `self.shipping_address or self.billing_address`: an address is always
      true, so the shipping address wins whenever there is one. */
  function PreferredAddress(shipping: Option<Address>, billing: Option<Address>): (a: Option<Address>)
    ensures shipping.Some? ==> a == shipping
    ensures shipping.None? ==> a == billing
  {
    if shipping.Some? then shipping else billing
  }

  /** The country that `get_country` takes from the addresses, if any. The
      shipping address decides alone whenever it exists, so a blank country on
      it yields none even when the billing address has one; the billing
      address is read only when there is no shipping address. */
  function AddressCountry(shipping: Option<Address>, billing: Option<Address>): (r: Option<CountryCode>)
    ensures shipping.Some? ==>
      r == if shipping.value.country == "" then None else Some(shipping.value.country)
    ensures shipping.None? && billing.Some? ==>
      r == if billing.value.country == "" then None else Some(billing.value.country)
    ensures shipping.None? && billing.None? ==> r.None?
    ensures r.Some? ==> r.value != ""
  {
    match PreferredAddress(shipping, billing)
    case None => None
    case Some(a) => if a.country == "" then None else Some(a.country)
  }

  // ---------------------------------------------------------------------
  // The checkout object

  class Checkout {
    var user: Option<Account.User>
    var email: string
    var currency: string
    /** The cached country. The country field always reads as a country
        object, a blank one ("") when empty, never as `None`. */
    var country: CountryCode
    var shippingAddress: Option<Address>
    var billingAddress: Option<Address>
    var lines: seq<CheckoutLine>
    var giftCards: seq<GiftCard>
    var payments: seq<Payment>
    /** Every call to `save`, oldest first. */
    var saves: seq<Save>

    constructor (user: Option<Account.User>, email: string, currency: string,
                 country: CountryCode, shippingAddress: Option<Address>,
                 billingAddress: Option<Address>, lines: seq<CheckoutLine>,
                 giftCards: seq<GiftCard>, payments: seq<Payment>)
      ensures this.user == user && this.email == email && this.currency == currency
      ensures this.country == country
      ensures this.shippingAddress == shippingAddress && this.billingAddress == billingAddress
      ensures this.lines == lines && this.giftCards == giftCards && this.payments == payments
      ensures this.saves == []
    {
      this.user, this.email, this.currency := user, email, currency;
      this.country := country;
      this.shippingAddress, this.billingAddress := shippingAddress, billingAddress;
      this.lines, this.giftCards, this.payments := lines, giftCards, payments;
      this.saves := [];
    }

    /** `Checkout.get_customer_email`. */
    function GetCustomerEmail(): (r: string)
      reads this
      ensures user.Some? ==> r == user.value.email
      ensures user.None? ==> r == email
    {
      CustomerEmail(user, email)
    }

    /** `Checkout.is_shipping_required`. */
    function IsShippingRequired(): (r: bool)
      reads this
      ensures r <==> exists i :: 0 <= i < |lines| && lines[i].variant.isShippingRequired
    {
      AnyLineRequiresShipping(lines)
    }

    /** `Checkout.get_total_gift_cards_balance`. */
    function GetTotalGiftCardsBalance(): (m: Money)
      reads this
      ensures m.currency == currency && m.amount == SumBalances(giftCards)
      ensures giftCards == [] ==> m == ZeroMoney(currency)
    {
      TotalGiftCardsBalance(giftCards, currency)
    }

    /** `Checkout.get_line`. */
    function GetLine(variant: Variant): (r: Option<CheckoutLine>)
      reads this
      ensures r.None? <==> forall i :: 0 <= i < |lines| ==> lines[i].variant.pk != variant.pk
      ensures r.Some? ==>
        exists i :: 0 <= i < |lines| && lines[i] == r.value && lines[i].variant.pk == variant.pk &&
          forall j :: 0 <= j < i ==> lines[j].variant.pk != variant.pk
    {
      FirstLineForVariant(lines, variant)
    }

    /** `Checkout.get_last_active_payment`. */
    function GetLastActivePayment(): (r: Option<Payment>)
      reads this
      ensures r.None? <==> forall i :: 0 <= i < |payments| ==> !payments[i].isActive
      ensures r.Some? ==> r.value.isActive
      ensures r.Some? ==> forall i :: 0 <= i < |payments| && payments[i].isActive ==> payments[i].pk <= r.value.pk
      ensures r.Some? ==>
        exists i :: 0 <= i < |payments| && payments[i] == r.value &&
          forall j :: 0 <= j < i && payments[j].isActive ==> payments[j].pk < r.value.pk
    {
      LastActivePayment(payments)
    }

    /** `Checkout.get_total_weight`: accumulates the line weights from the
        zero weight. */
    method GetTotalWeight() returns (weights: Weight)
      ensures weights == TotalWeight(lines)
      ensures lines == [] ==> weights == ZeroWeight
    {
      weights := ZeroWeight;
      for i := 0 to |lines|
        invariant weights == TotalWeight(lines[..i])
      {
        assert lines[..i + 1][..i] == lines[..i];
        weights := weights + lines[i].variant.weight * lines[i].quantity;
      }
      assert lines[..|lines|] == lines;
    }

    /** `Checkout.set_country`, with the same defaults. The guard `self.country is not None` always holds, since the cached
        country is never `None`: without `replace` nothing happens. */
    method SetCountry(countryCode: CountryCode, commit: bool := false, replace: bool := true)
      modifies this`country, this`saves
      ensures !replace ==> country == old(country) && saves == old(saves)
      ensures replace ==>
        country == countryCode &&
        saves == old(saves) + (if commit then [Save(["country"], countryCode)] else [])
    {
      if !replace {
        return;
      }
      country := countryCode;
      if commit {
        saves := saves + [Save(["country"], countryCode)];
      }
    }

    /** `Checkout.get_country`: the country of the preferred address when it
        has one, stored (and saved) when it differs from the cached one;
        otherwise the cached country. */
    method GetCountry() returns (code: CountryCode)
      modifies this`country, this`saves
      ensures AddressCountry(shippingAddress, billingAddress).None? ==>
        code == old(country) && country == old(country) && saves == old(saves)
      ensures AddressCountry(shippingAddress, billingAddress).Some? ==>
        var addressCode := AddressCountry(shippingAddress, billingAddress).value;
        code == addressCode && country == addressCode &&
        saves == old(saves) + (if addressCode != old(country) then [Save(["country"], addressCode)] else [])
    {
      var address := PreferredAddress(shippingAddress, billingAddress);
      var savedCountry := country;
      if address.None? || address.value.country == "" {
        return savedCountry;
      }
      var countryCode := address.value.country;
      if countryCode != savedCountry {
        SetCountry(countryCode, commit := true);
      }
      return countryCode;
    }
  }

  /** Once `get_country` has corrected the cached country, calling it again
      returns the same code and writes nothing: the first call adds at most
      one save (`mid` is the log between the calls), the second none. */
  method GetCountryIsIdempotent(c: Checkout) returns (first: CountryCode, second: CountryCode, ghost mid: seq<Save>)
    modifies c`country, c`saves
    ensures first == second
    ensures old(c.saves) <= mid && |mid| <= |old(c.saves)| + 1
    ensures c.saves == mid
  {
    first := c.GetCountry();
    mid := c.saves;
    second := c.GetCountry();
  }
}
