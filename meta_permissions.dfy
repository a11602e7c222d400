/** The metadata permission resolution of saleor/graphql/meta/permissions.py:
    decision functions that map a requester and a target primary key to the
    permissions required to touch the target's metadata, and the public and
    private tables that choose a decision function per entity type. */
module MetaPermissions {
  import opened Wrappers
  import Account

  datatype Permission =
    | ManageStaff             // AccountPermissions.MANAGE_STAFF
    | ManageUsers             // AccountPermissions.MANAGE_USERS
    | ManageServiceAccounts   // AccountPermissions.MANAGE_SERVICE_ACCOUNTS
    | ManageProducts          // ProductPermissions.MANAGE_PRODUCTS
    | ManageOrders            // OrderPermissions.MANAGE_ORDERS
    | ManageCheckouts         // CheckoutPermissions.MANAGE_CHECKOUTS

  datatype Error = PermissionDenied

  /** What a decision function reads of the request: the pk of the requesting
      user, `None` for an anonymous one. */
  datatype Info = Info(requesterPk: Option<int>)

  /** The user table, in the order the database returns it. */
  type Users = seq<Account.User>

  type Decision = Result<seq<Permission>, Error>

  /** `User.objects.filter(pk=user_pk).first()`. */
  function FindUser(users: Users, pk: int): (r: Option<Account.User>)
    ensures r.None? <==> forall i :: 0 <= i < |users| ==> users[i].pk != pk
    ensures r.Some? ==>
      exists i :: 0 <= i < |users| && users[i] == r.value && users[i].pk == pk &&
        forall j :: 0 <= j < i ==> users[j].pk != pk
  {
    if users == [] then None
    else if users[0].pk == pk then Some(users[0])
    else
      var r := FindUser(users[1..], pk);
      assert forall i :: 1 <= i < |users| ==> users[i] == users[1..][i - 1];
      r
  }

  /** The permission that guards a user's metadata: managing staff for a
      staff member, managing users for anyone else. */
  function UserPermission(u: Account.User): Permission
  {
    if u.isStaff then ManageStaff else ManageUsers
  }

  // ---------------------------------------------------------------------
  // Decision functions

  function NoPermissions(users: Users, info: Info, objectPk: int): (r: Decision)
    ensures r == Success([])
  {
    Success([])
  }

  function PublicUserPermissions(users: Users, info: Info, userPk: int): (r: Decision)
    ensures r.Failure? <==> forall i :: 0 <= i < |users| ==> users[i].pk != userPk
    ensures r.Success? && info.requesterPk == Some(userPk) ==> r.value == []
    ensures r.Success? && info.requesterPk != Some(userPk) ==>
      exists i :: 0 <= i < |users| && users[i].pk == userPk && r.value == [UserPermission(users[i])] &&
        forall j :: 0 <= j < i ==> users[j].pk != userPk
  {
    var user := FindUser(users, userPk);
    if user.None? then Failure(PermissionDenied)
    else if info.requesterPk == Some(user.value.pk) then Success([])
    else Success([UserPermission(user.value)])
  }

  function PrivateUserPermissions(users: Users, info: Info, userPk: int): (r: Decision)
    ensures r.Failure? <==> forall i :: 0 <= i < |users| ==> users[i].pk != userPk
    ensures r.Success? ==>
      exists i :: 0 <= i < |users| && users[i].pk == userPk && r.value == [UserPermission(users[i])] &&
        forall j :: 0 <= j < i ==> users[j].pk != userPk
  {
    var user := FindUser(users, userPk);
    if user.None? then Failure(PermissionDenied)
    else Success([UserPermission(user.value)])
  }

  function ProductPermissions(users: Users, info: Info, objectPk: int): (r: Decision)
    ensures r == Success([ManageProducts])
  {
    Success([ManageProducts])
  }

  function OrderPermissions(users: Users, info: Info, objectPk: int): (r: Decision)
    ensures r == Success([ManageOrders])
  {
    Success([ManageOrders])
  }

  function ServiceAccountPermissions(users: Users, info: Info, objectPk: int): (r: Decision)
    ensures r == Success([ManageServiceAccounts])
  {
    Success([ManageServiceAccounts])
  }

  function CheckoutPermissions(users: Users, info: Info, objectPk: int): (r: Decision)
    ensures r == Success([ManageCheckouts])
  {
    Success([ManageCheckouts])
  }

  /** The public function differs from the private one only on self-access:
      a user reading their own record needs nothing, staff or not. */
  lemma PublicIsPrivateExceptSelf(users: Users, info: Info, userPk: int)
    ensures PublicUserPermissions(users, info, userPk) ==
      if info.requesterPk == Some(userPk) && PrivateUserPermissions(users, info, userPk).Success?
      then Success([])
      else PrivateUserPermissions(users, info, userPk)
  {
  }

  /** With unique primary keys, the required permission of an existing target
      is decided by that user's staff flag alone. */
  lemma UserPermissionsOfExistingTarget(users: Users, info: Info, k: nat)
    requires k < |users|
    requires forall i, j :: 0 <= i < j < |users| ==> users[i].pk != users[j].pk
    ensures PrivateUserPermissions(users, info, users[k].pk) ==
      Success(if users[k].isStaff then [ManageStaff] else [ManageUsers])
    ensures info.requesterPk != Some(users[k].pk) ==>
      PublicUserPermissions(users, info, users[k].pk) == PrivateUserPermissions(users, info, users[k].pk)
    ensures info.requesterPk == Some(users[k].pk) ==> PublicUserPermissions(users, info, users[k].pk) == Success([])
  {
  }

  // ---------------------------------------------------------------------
  // Tables

  /** Names of the decision functions, so that table entries can be compared. */
  datatype PermissionFunction =
    | NoPermissionsFn
    | PublicUserPermissionsFn
    | PrivateUserPermissionsFn
    | ProductPermissionsFn
    | OrderPermissionsFn
    | ServiceAccountPermissionsFn
    | CheckoutPermissionsFn

  /** Calling a table entry. Only the two user functions can deny, and only
      `no_permissions` and the public user function can ask for nothing. */
  function Apply(f: PermissionFunction, users: Users, info: Info, pk: int): (r: Decision)
    ensures r.Failure? ==> f == PublicUserPermissionsFn || f == PrivateUserPermissionsFn
    ensures r == Success([]) ==> f == NoPermissionsFn || f == PublicUserPermissionsFn
  {
    match f
    case NoPermissionsFn => NoPermissions(users, info, pk)
    case PublicUserPermissionsFn => PublicUserPermissions(users, info, pk)
    case PrivateUserPermissionsFn => PrivateUserPermissions(users, info, pk)
    case ProductPermissionsFn => ProductPermissions(users, info, pk)
    case OrderPermissionsFn => OrderPermissions(users, info, pk)
    case ServiceAccountPermissionsFn => ServiceAccountPermissions(users, info, pk)
    case CheckoutPermissionsFn => CheckoutPermissions(users, info, pk)
  }

  /** `PUBLIC_META_PERMISSION_MAP`: only checkouts and orders are free. */
  function PublicMetaPermissionMap(): (m: map<string, PermissionFunction>)
    ensures m.Keys == MetaTypes
    ensures forall t :: t in m ==> (m[t] == NoPermissionsFn <==> t == "Checkout" || t == "Order")
    ensures forall t :: t in m ==> m[t] != PrivateUserPermissionsFn && m[t] != CheckoutPermissionsFn
  {
    map[
      "Attribute" := ProductPermissionsFn,
      "Category" := ProductPermissionsFn,
      "Checkout" := NoPermissionsFn,
      "Collection" := ProductPermissionsFn,
      "DigitalContent" := ProductPermissionsFn,
      "Fulfillment" := OrderPermissionsFn,
      "Order" := NoPermissionsFn,
      "Product" := ProductPermissionsFn,
      "ProductType" := ProductPermissionsFn,
      "ProductVariant" := ProductPermissionsFn,
      "ServiceAccount" := ServiceAccountPermissionsFn,
      "User" := PublicUserPermissionsFn
    ]
  }

  /** `PRIVATE_META_PERMISSION_MAP`: no entry is free. */
  function PrivateMetaPermissionMap(): (m: map<string, PermissionFunction>)
    ensures m.Keys == MetaTypes
    ensures forall t :: t in m ==> m[t] != NoPermissionsFn && m[t] != PublicUserPermissionsFn
  {
    map[
      "Attribute" := ProductPermissionsFn,
      "Category" := ProductPermissionsFn,
      "Checkout" := CheckoutPermissionsFn,
      "Collection" := ProductPermissionsFn,
      "DigitalContent" := ProductPermissionsFn,
      "Fulfillment" := OrderPermissionsFn,
      "Order" := OrderPermissionsFn,
      "Product" := ProductPermissionsFn,
      "ProductType" := ProductPermissionsFn,
      "ProductVariant" := ProductPermissionsFn,
      "ServiceAccount" := ServiceAccountPermissionsFn,
      "User" := PrivateUserPermissionsFn
    ]
  }

  /** A dictionary lookup; an entity type outside the table is not handled. */
  function Lookup(table: map<string, PermissionFunction>, typeName: string): (r: Option<PermissionFunction>)
    ensures r.None? <==> typeName !in table
    ensures r.Some? ==> typeName in table && table[typeName] == r.value
  {
    if typeName in table then Some(table[typeName]) else None
  }

  /** The entity types both tables know. */
  const MetaTypes: set<string> := {
    "Attribute", "Category", "Checkout", "Collection", "DigitalContent", "Fulfillment",
    "Order", "Product", "ProductType", "ProductVariant", "ServiceAccount", "User"
  }

  lemma TablesHaveSameKeys()
    ensures PublicMetaPermissionMap().Keys == PrivateMetaPermissionMap().Keys == MetaTypes
  {
  }

  /** The two tables agree everywhere except on checkouts, orders and users. */
  lemma TablesDifferExactlyAt(typeName: string)
    requires typeName in MetaTypes
    ensures PublicMetaPermissionMap()[typeName] != PrivateMetaPermissionMap()[typeName] <==>
      typeName == "Checkout" || typeName == "Order" || typeName == "User"
  {
  }

  lemma TablesAtDifferingKeys()
    ensures PublicMetaPermissionMap()["Checkout"] == NoPermissionsFn && PrivateMetaPermissionMap()["Checkout"] == CheckoutPermissionsFn
    ensures PublicMetaPermissionMap()["Order"] == NoPermissionsFn && PrivateMetaPermissionMap()["Order"] == OrderPermissionsFn
    ensures PublicMetaPermissionMap()["User"] == PublicUserPermissionsFn && PrivateMetaPermissionMap()["User"] == PrivateUserPermissionsFn
  {
  }

  /** Private metadata is never free: a lookup in the private table fails
      exactly for an unknown entity type, and a found entry either denies or
      asks for exactly one permission. */
  lemma PrivateLookupNeverEmpty(typeName: string, users: Users, info: Info, pk: int)
    ensures Lookup(PrivateMetaPermissionMap(), typeName).None? <==> typeName !in MetaTypes
    ensures Lookup(PrivateMetaPermissionMap(), typeName).Some? ==>
      var r := Apply(Lookup(PrivateMetaPermissionMap(), typeName).value, users, info, pk);
      r.Failure? || |r.value| == 1
  {
  }

  /** Public metadata of checkouts and orders is free for everybody. */
  lemma PublicCheckoutAndOrderAreFree(users: Users, info: Info, pk: int)
    ensures Lookup(PublicMetaPermissionMap(), "Checkout").Some?
    ensures Apply(Lookup(PublicMetaPermissionMap(), "Checkout").value, users, info, pk) == Success([])
    ensures Lookup(PublicMetaPermissionMap(), "Order").Some?
    ensures Apply(Lookup(PublicMetaPermissionMap(), "Order").value, users, info, pk) == Success([])
  {
  }

  /** Every entry other than the two user functions asks for a fixed list,
      whatever the requester and the target. */
  lemma ConstantEntriesIgnoreArguments(f: PermissionFunction, users: Users, info: Info, pk: int,
                                       users': Users, info': Info, pk': int)
    requires f != PublicUserPermissionsFn && f != PrivateUserPermissionsFn
    ensures Apply(f, users, info, pk) == Apply(f, users', info', pk')
    ensures Apply(f, users, info, pk).Success?
    ensures f != NoPermissionsFn ==> |Apply(f, users, info, pk).value| == 1
  {
  }

  /** Both user functions deny when the target user does not exist. */
  lemma MissingUserDenied(users: Users, info: Info, userPk: int)
    requires forall i :: 0 <= i < |users| ==> users[i].pk != userPk
    ensures PublicUserPermissions(users, info, userPk) == Failure(PermissionDenied)
    ensures PrivateUserPermissions(users, info, userPk) == Failure(PermissionDenied)
  {
  }
}
