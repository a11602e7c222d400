# Saleor checkout aggregate and metadata permissions, in Dafny

This project models two small pieces of the Saleor e-commerce platform and
proves properties of them.

- **The checkout aggregate** (`checkout_models.dfy`, module `CheckoutModels`).
  A checkout holds lines, gift cards and payments. Each line has a product
  variant, a quantity of at least 1 and a JSON payload. The read-only helpers
  are pure functions over those fields:
  - the customer e-mail;
  - whether shipping is required;
  - the total gift-card balance;
  - the line for a variant;
  - the last active payment.

  The class `Checkout` holds the checkout's fields, including the state that
  the source changes in place: the cached country and the log of `save()`
  calls. Its functions `GetCustomerEmail`, `IsShippingRequired`,
  `GetTotalGiftCardsBalance`, `GetLine` and `GetLastActivePayment` apply the
  pure helpers to its fields and state their properties over those fields. Its methods are `GetTotalWeight` (a loop),
  `SetCountry` and `GetCountry`.
- **Metadata permission resolution** (`meta_permissions.dfy`, module
  `MetaPermissions`). The decision functions map a user table, the requester
  and a target pk to either the list of permissions needed for the target's
  metadata or `PermissionDenied`. The public and private tables map an entity
  type name to one of these functions.

`wrappers.dfy` defines `Option` and `Result`. `account.dfy` defines the
user record (pk, e-mail, staff flag) that both parts read.

Modelling choices:
- Money amounts and weights are integers. Weight is one fixed unit with zero
  as `zero_weight()`. Money is an amount paired with a currency code.
- A variant's weight stands for what `variant.get_weight()` returns for it.
- A variant is compared by primary key, as Django compares saved model
  instances. Unsaved instances, whose pk is `None`, compare by identity; every
  variant here is a saved row.
- Country codes are strings. An address with the empty string has a blank
  country, which Python treats as false.
- The cached country of a checkout is a `CountryCode`, "" when blank. The
  country field always reads as a country object, never `None`, so the test
  `self.country is not None` in `set_country` always holds: with `replace`
  off, `SetCountry` changes nothing.
- `self.shipping_address or self.billing_address` picks the shipping address
  whenever there is one, since an address object is always true. A shipping
  address with a blank country therefore hides the billing address
  (`AddressCountry`).
- `save(update_fields=["country"])` appends a `Save` record to the field
  `saves`. The record holds the columns written and the stored code.
- `User.objects.filter(pk=...).first()` is `FindUser` over a sequence of user
  rows. The requester is reduced to its pk, which is `None` for an anonymous
  user.
- The tables map names to a `PermissionFunction` enumeration, applied by
  `Apply`, so that entries can be compared. A name outside a table gives
  `None` from `Lookup`.
- Self-access yields the empty list, and only in the public function; a
  non-staff target yields `MANAGE_USERS`.

## Model

| member | source | states |
|---|---|---|
| CheckoutModels.LineEq | saleor/checkout/models.py:195-199 | two lines are equal iff their variant pks and their quantities agree; the data payload plays no part |
| CheckoutModels.LineNe | saleor/checkout/models.py:201-202 | `!=` holds iff `==` does not |
| CheckoutModels.LineEqIgnoresData | saleor/checkout/models.py:195-199 | changing a line's data payload never changes what it equals |
| CheckoutModels.LineEqIsEquivalence | saleor/checkout/models.py:195-199 | line equality is reflexive, symmetric and transitive |
| CheckoutModels.EqualLinesMayBeDistinctRows | saleor/checkout/models.py:183-199 | two lines with the same variant and quantity but different data have different uniqueness keys (checkout, variant, data) yet compare equal |
| CheckoutModels.LineIsShippingRequired | saleor/checkout/models.py:213-215 | a line requires shipping iff its variant does |
| CheckoutModels.CustomerEmail | saleor/checkout/models.py:116-117 | the user's e-mail when a user is set, otherwise the checkout e-mail |
| CheckoutModels.Checkout.GetCustomerEmail | saleor/checkout/models.py:116-117 | the user's e-mail when the checkout has a user, otherwise the checkout's own e-mail |
| CheckoutModels.AnyLineRequiresShipping | saleor/checkout/models.py:119-121 | true iff some line's variant requires shipping |
| CheckoutModels.Checkout.IsShippingRequired | saleor/checkout/models.py:119-121 | true iff some line of the checkout has a variant that requires shipping |
| CheckoutModels.ZeroMoney | saleor/checkout/models.py:129 | an amount of zero in the given currency |
| CheckoutModels.AggregateBalance | saleor/checkout/models.py:125-127 | the SQL sum is absent exactly when no gift card is attached, and otherwise is the sum of the balances |
| CheckoutModels.TotalGiftCardsBalance | saleor/checkout/models.py:123-130 | result is in the checkout currency, its amount is the sum of the current balances, and it is zero money when no card is attached |
| CheckoutModels.Checkout.GetTotalGiftCardsBalance | saleor/checkout/models.py:123-130 | the sum of the checkout's gift-card balances in the checkout's currency, zero money with no cards |
| CheckoutModels.SumBalancesAppend | saleor/checkout/models.py:123-130 | the balance total of two groups of cards is the sum of their totals |
| CheckoutModels.SumBalancesPermutation | saleor/checkout/models.py:94-130 | the total does not depend on the order of the attached cards (they form a many-to-many set) |
| CheckoutModels.TotalWeightAppend | saleor/checkout/models.py:132-137 | the weight of concatenated lines is the sum of the weights |
| CheckoutModels.TotalWeightNonNegative | saleor/checkout/models.py:132-137 | with non-negative variant weights the total weight is non-negative |
| CheckoutModels.TotalWeightBoundsLines | saleor/checkout/models.py:132-137 | with non-negative variant weights every line's weight times quantity is at most the total |
| CheckoutModels.Checkout.GetTotalWeight | saleor/checkout/models.py:132-137 | the loop returns the sum over lines of variant weight times quantity, and the zero weight for no lines |
| CheckoutModels.FirstLineForVariant | saleor/checkout/models.py:139-142 | None iff no line has the variant's pk; otherwise the earliest line with that pk |
| CheckoutModels.Checkout.GetLine | saleor/checkout/models.py:139-142 | None iff no line of the checkout has the variant's pk; otherwise the earliest such line |
| CheckoutModels.LastActivePayment | saleor/checkout/models.py:144-146 | None iff no payment is active; otherwise an active payment whose pk is at least every active payment's pk, and the first such in order |
| CheckoutModels.Checkout.GetLastActivePayment | saleor/checkout/models.py:144-146 | None iff no payment of the checkout is active; otherwise the first active payment with the largest pk among the active ones |
| CheckoutModels.PreferredAddress | saleor/checkout/models.py:159 | the shipping address whenever there is one, otherwise the billing address |
| CheckoutModels.AddressCountry | saleor/checkout/models.py:159-164 | the shipping address decides whenever it exists (a blank country on it yields none); the billing address is read only without a shipping address; a chosen country is never blank |
| CheckoutModels.Checkout.SetCountry | saleor/checkout/models.py:148-156 | with replace off nothing changes and nothing is written (the cached country is never None); otherwise the country becomes the code, and a save of only `country` is logged exactly when commit is set |
| CheckoutModels.Checkout.GetCountry | saleor/checkout/models.py:158-167 | with no usable address it returns the cached code and changes nothing; otherwise it returns the address's code, the cached country equals it afterwards, and one save is logged exactly when the codes differed |
| CheckoutModels.GetCountryIsIdempotent | saleor/checkout/models.py:158-167 | two calls in a row return the same code; the first adds at most one save and the second writes nothing |
| MetaPermissions.FindUser | saleor/graphql/meta/permissions.py:19-22 | None iff no user row has the pk; otherwise the first row with that pk |
| MetaPermissions.NoPermissions | saleor/graphql/meta/permissions.py:15-16 | the empty list for every input |
| MetaPermissions.PublicUserPermissions | saleor/graphql/meta/permissions.py:19-27 | denied iff the target does not exist; empty when the requester is the target (staff or not); otherwise exactly the target's MANAGE_STAFF or MANAGE_USERS |
| MetaPermissions.PrivateUserPermissions | saleor/graphql/meta/permissions.py:30-36 | denied iff the target does not exist; otherwise exactly MANAGE_STAFF for a staff target and MANAGE_USERS for anyone else, whoever asks |
| MetaPermissions.PublicIsPrivateExceptSelf | saleor/graphql/meta/permissions.py:19-36 | the public user function equals the private one except that self-access of an existing target yields the empty list |
| MetaPermissions.UserPermissionsOfExistingTarget | saleor/graphql/meta/permissions.py:19-36 | with unique pks an existing target needs exactly MANAGE_STAFF if staff and MANAGE_USERS otherwise, in the private function always and in the public one unless the requester is the target |
| MetaPermissions.MissingUserDenied | saleor/graphql/meta/permissions.py:19-33 | both user functions raise PermissionDenied for a missing target |
| MetaPermissions.ProductPermissions | saleor/graphql/meta/permissions.py:39-40 | always exactly MANAGE_PRODUCTS |
| MetaPermissions.OrderPermissions | saleor/graphql/meta/permissions.py:43-44 | always exactly MANAGE_ORDERS |
| MetaPermissions.ServiceAccountPermissions | saleor/graphql/meta/permissions.py:47-48 | always exactly MANAGE_SERVICE_ACCOUNTS |
| MetaPermissions.CheckoutPermissions | saleor/graphql/meta/permissions.py:51-52 | always exactly MANAGE_CHECKOUTS |
| MetaPermissions.ConstantEntriesIgnoreArguments | saleor/graphql/meta/permissions.py:15-52 | every function other than the two user ones succeeds with the same list for all arguments, a singleton unless it is `no_permissions` |
| MetaPermissions.Apply | saleor/graphql/meta/permissions.py:15-52 | calling a table entry; only the two user functions can deny, and only `no_permissions` and the public user function can return the empty list |
| MetaPermissions.PublicMetaPermissionMap | saleor/graphql/meta/permissions.py:55-68 | the twelve entity types; the entry is `no_permissions` exactly for "Checkout" and "Order"; no private-only function appears |
| MetaPermissions.PrivateMetaPermissionMap | saleor/graphql/meta/permissions.py:71-84 | the same twelve entity types; no entry is `no_permissions` or the public user function |
| MetaPermissions.Lookup | saleor/graphql/meta/permissions.py:55-84 | a table lookup is None exactly for a name outside the table, otherwise the table's entry |
| MetaPermissions.TablesHaveSameKeys | saleor/graphql/meta/permissions.py:55-84 | both tables have the same twelve entity types as keys |
| MetaPermissions.TablesDifferExactlyAt | saleor/graphql/meta/permissions.py:55-84 | the entries differ exactly at "Checkout", "Order" and "User" |
| MetaPermissions.TablesAtDifferingKeys | saleor/graphql/meta/permissions.py:58-83 | at those keys the public table has no_permissions, no_permissions and public_user_permissions, the private one checkout_permissions, order_permissions and private_user_permissions |
| MetaPermissions.PrivateLookupNeverEmpty | saleor/graphql/meta/permissions.py:71-84 | a private lookup gives None exactly for an unknown entity type; a found entry denies or requires exactly one permission, never the empty list |
| MetaPermissions.PublicCheckoutAndOrderAreFree | saleor/graphql/meta/permissions.py:55-68 | looking up "Checkout" or "Order" in the public table finds an entry that asks no permission of any requester |

## Left out

- ORM field declarations, `Meta` options (ordering, permissions, the uniqueness constraint as a database rule) and `CheckoutQueryset.for_display` are persistence configuration without behaviour. Lines are kept in the order the database returns them.
- `Checkout.__iter__` and `__len__` are the sequence `lines` and its length. `__repr__`, `__str__`, `__hash__`, `__getstate__` and `__setstate__` are not modelled.
- Persistence: `save()` is only a log entry. The SQL `Sum` aggregate and the `filter(...).first()` query are pure functions over in-memory sequences.
- CheckoutModels.Checkout.GetCountry: country codes are compared as given. `Country(...)` and `.code` normalise codes (case, alpha-3 to alpha-2), so where the program sees two spellings of one country as equal, the model sees a difference and logs a save. The same holds for `CheckoutModels.Checkout.SetCountry`, which stores the code unnormalised.
- The `prices.Money`, `Weight` and `Country` library types: amounts and weights are integers, countries are codes. The currencies of the gift cards, unit conversion, decimal rounding and country-code validation are not modelled.
- `Checkout.quantity`, the cached total of the line quantities, is not modelled; no code in these files maintains it.
- The `PermissionDenied` exception class of the JWT library is the error value of a `Result`. Only the requester's pk is read from the request context.
- `saleor/warehouse/models.py` is a schema declaration and is not part of this model. So are `saleor/graphql/product/bulk_mutations/attributes.py`, which configures a framework mutation, and `saleor/graphql/translations/schema.py`, which holds GraphQL types and resolvers that call other modules.
