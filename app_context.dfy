/**
 * The application context of lib/context.tsx: who is signed in, the chosen
 * market location and the shopping cart.
 *
 * The cart updates are pure list transforms (find/map/filter over the
 * previous cart) and are functions here; the provider's state fields, which
 * login, logout and the cart setters overwrite, are the fields of class
 * AppState.
 */
module AppContext {
  import opened Common

  datatype UserRole = Buyer | Vendor
  datatype UserStatus = Visitor | Authenticated

  datatype User = User(id: string, name: string, email: string, role: UserRole, avatar: Option<string>, location: Option<string>)

  /** lib/types.ts `CartItem`; the price is carried as an opaque number. */
  datatype CartItem = CartItem(productId: string, vendorId: string, quantity: int, price: int)

  /** `mockUsers.buyer` of lib/mock-data.ts. */
  const MockBuyer: User := User("buyer-1", "Maria Santos", "maria@example.com", Buyer, Some("/diverse-user-avatars.png"), None)
  /** `mockUsers.vendor` of lib/mock-data.ts. */
  const MockVendor: User := User("vendor-user-1", "Lola Rosa", "lola@example.com", Vendor, Some("/placeholder-user.jpg"), None)

  // ---------------------------------------------------------------- cart transforms

  /** Some entry of the cart is for this product (`prev.find(...)` is truthy). */
  predicate HasProduct(cart: seq<CartItem>, productId: string) {
    exists i :: 0 <= i < |cart| && cart[i].productId == productId
  }

  /** No two entries share a productId. */
  predicate Unique(cart: seq<CartItem>) {
    forall i, j :: 0 <= i < j < |cart| ==> cart[i].productId != cart[j].productId
  }

  /** `prev.map(i => i.productId === id ? {...i, quantity: i.quantity + n} : i)`. */
  function AddQuantity(cart: seq<CartItem>, productId: string, n: int): (r: seq<CartItem>)
    ensures |r| == |cart|
    ensures forall i :: 0 <= i < |cart| && cart[i].productId == productId ==>
      r[i] == cart[i].(quantity := cart[i].quantity + n)
    ensures forall i :: 0 <= i < |cart| && cart[i].productId != productId ==> r[i] == cart[i]
  {
    if cart == [] then []
    else
      var head := if cart[0].productId == productId then cart[0].(quantity := cart[0].quantity + n) else cart[0];
      [head] + AddQuantity(cart[1..], productId, n)
  }

  /** `prev.map(i => i.productId === id ? {...i, quantity} : i)`. */
  function SetQuantity(cart: seq<CartItem>, productId: string, quantity: int): (r: seq<CartItem>)
    ensures |r| == |cart|
    ensures forall i :: 0 <= i < |cart| && cart[i].productId == productId ==> r[i] == cart[i].(quantity := quantity)
    ensures forall i :: 0 <= i < |cart| && cart[i].productId != productId ==> r[i] == cart[i]
  {
    if cart == [] then []
    else
      var head := if cart[0].productId == productId then cart[0].(quantity := quantity) else cart[0];
      [head] + SetQuantity(cart[1..], productId, quantity)
  }

  /** `prev.filter(i => i.productId !== id)`: the entries for every other product, in order. */
  function Without(cart: seq<CartItem>, productId: string): (r: seq<CartItem>)
    ensures |r| <= |cart|
    ensures forall x :: x in r ==> x in cart && x.productId != productId
    ensures forall x :: x in cart && x.productId != productId ==> x in r
  {
    if cart == [] then []
    else (if cart[0].productId != productId then [cart[0]] else []) + Without(cart[1..], productId)
  }

  /** addToCart: merge into the existing entry for that product, or append a new one. */
  function AddItem(cart: seq<CartItem>, item: CartItem): (r: seq<CartItem>)
    ensures HasProduct(cart, item.productId) ==> |r| == |cart| && HasProduct(r, item.productId)
    ensures !HasProduct(cart, item.productId) ==> r == cart + [item]
  {
    if HasProduct(cart, item.productId) then AddQuantity(cart, item.productId, item.quantity)
    else cart + [item]
  }

  /** updateCartQuantity: a quantity of zero or less removes the product. */
  function UpdateQuantity(cart: seq<CartItem>, productId: string, quantity: int): (r: seq<CartItem>)
    ensures quantity <= 0 ==> r == Without(cart, productId)
    ensures quantity > 0 ==> |r| == |cart|
  {
    if quantity <= 0 then Without(cart, productId) else SetQuantity(cart, productId, quantity)
  }

  lemma {:induction false} WithoutConcat(a: seq<CartItem>, b: seq<CartItem>, productId: string)
    ensures Without(a + b, productId) == Without(a, productId) + Without(b, productId)
  {
    if a == [] {
      assert a + b == b;
    } else {
      assert (a + b)[0] == a[0];
      assert (a + b)[1..] == a[1..] + b;
      WithoutConcat(a[1..], b, productId);
    }
  }

  lemma {:induction false} WithoutAddQuantity(cart: seq<CartItem>, productId: string, n: int)
    ensures Without(AddQuantity(cart, productId, n), productId) == Without(cart, productId)
  {
    if cart != [] {
      var r := AddQuantity(cart, productId, n);
      assert r[1..] == AddQuantity(cart[1..], productId, n);
      WithoutAddQuantity(cart[1..], productId, n);
    }
  }

  lemma {:induction false} WithoutSetQuantity(cart: seq<CartItem>, productId: string, quantity: int)
    ensures Without(SetQuantity(cart, productId, quantity), productId) == Without(cart, productId)
  {
    if cart != [] {
      var r := SetQuantity(cart, productId, quantity);
      assert r[1..] == SetQuantity(cart[1..], productId, quantity);
      WithoutSetQuantity(cart[1..], productId, quantity);
    }
  }

  lemma {:induction false} WithoutTwice(cart: seq<CartItem>, productId: string)
    ensures Without(Without(cart, productId), productId) == Without(cart, productId)
  {
    if cart != [] {
      var w, w1 := Without(cart, productId), Without(cart[1..], productId);
      WithoutTwice(cart[1..], productId);
      if cart[0].productId != productId {
        assert w == [cart[0]] + w1;
        assert w[1..] == w1;
      } else {
        assert w == w1;
      }
    }
  }

  /**
   * Every cart operation on product p leaves the entries of all other
   * products as they were, in the same order.
   */
  lemma OthersUntouched(cart: seq<CartItem>, item: CartItem, productId: string, quantity: int)
    ensures Without(AddItem(cart, item), item.productId) == Without(cart, item.productId)
    ensures Without(Without(cart, productId), productId) == Without(cart, productId)
    ensures Without(UpdateQuantity(cart, productId, quantity), productId) == Without(cart, productId)
  {
    if HasProduct(cart, item.productId) {
      WithoutAddQuantity(cart, item.productId, item.quantity);
    } else {
      WithoutConcat(cart, [item], item.productId);
      assert Without([item], item.productId) == [];
    }
    WithoutTwice(cart, productId);
    if quantity <= 0 {
      WithoutTwice(cart, productId);
    } else {
      WithoutSetQuantity(cart, productId, quantity);
    }
  }

  /** removeFromCart leaves no entry for that product. */
  lemma RemoveLeavesNone(cart: seq<CartItem>, productId: string)
    ensures !HasProduct(Without(cart, productId), productId)
  {
    var r := Without(cart, productId);
    forall i | 0 <= i < |r|
      ensures r[i].productId != productId
    {
      assert r[i] in r;
    }
  }

  /** Adding a product already in the cart adds the quantity to its entry; its other fields stay. */
  lemma AddExistingMerges(cart: seq<CartItem>, item: CartItem, k: nat)
    requires k < |cart| && cart[k].productId == item.productId
    ensures |AddItem(cart, item)| == |cart|
    ensures AddItem(cart, item)[k] == cart[k].(quantity := cart[k].quantity + item.quantity)
  {
  }

  /** With quantity > 0, every entry of that product takes the new quantity and keeps its other fields. */
  lemma UpdateSetsQuantity(cart: seq<CartItem>, productId: string, quantity: int, k: nat)
    requires quantity > 0 && k < |cart| && cart[k].productId == productId
    ensures UpdateQuantity(cart, productId, quantity)[k] == cart[k].(quantity := quantity)
  {
  }

  /** Unique productIds stay unique under each cart operation. */
  lemma UniqueAddItem(cart: seq<CartItem>, item: CartItem)
    requires Unique(cart)
    ensures Unique(AddItem(cart, item))
  {
    var r := AddItem(cart, item);
    if !HasProduct(cart, item.productId) {
      forall i, j | 0 <= i < j < |r|
        ensures r[i].productId != r[j].productId
      {
        if j == |cart| {
          assert r[i] == cart[i];
        }
      }
    } else {
      forall i | 0 <= i < |r| ensures r[i].productId == cart[i].productId {}
    }
  }

  lemma {:induction false} UniqueWithout(cart: seq<CartItem>, productId: string)
    requires Unique(cart)
    ensures Unique(Without(cart, productId))
  {
    if cart != [] {
      var rest := Without(cart[1..], productId);
      UniqueWithout(cart[1..], productId);
      if cart[0].productId != productId {
        var r := [cart[0]] + rest;
        forall j | 1 <= j < |r|
          ensures r[0].productId != r[j].productId
        {
          assert r[j] in rest;
          assert r[j] in cart[1..];
          var k :| 0 <= k < |cart[1..]| && cart[1..][k] == r[j];
          assert cart[k + 1] == r[j];
        }
      }
    }
  }

  lemma UniqueUpdate(cart: seq<CartItem>, productId: string, quantity: int)
    requires Unique(cart)
    ensures Unique(UpdateQuantity(cart, productId, quantity))
  {
    if quantity <= 0 {
      UniqueWithout(cart, productId);
    } else {
      var r := UpdateQuantity(cart, productId, quantity);
      forall i | 0 <= i < |r| ensures r[i].productId == cart[i].productId {}
    }
  }

  // ---------------------------------------------------------------- provider state

  /** `AppProvider`'s state. Restoring a saved session from browser storage on mount is not modelled. */
  class AppState {
    var currentUser: Option<User>
    var userStatus: UserStatus
    var userRole: Option<UserRole>
    var selectedLocation: Option<string>
    var cart: seq<CartItem>

    ghost predicate Valid()
      reads this
    {
      Unique(cart)
    }

    constructor()
      ensures Valid()
      ensures currentUser == None && userStatus == Visitor && userRole == None
      ensures selectedLocation == None && cart == []
    {
      currentUser := None;
      userStatus := Visitor;
      userRole := None;
      selectedLocation := None;
      cart := [];
    }

    /** `login(email, password, role)`: the credentials are ignored; the user is the mock of that role. */
    method Login(email: string, password: string, role: UserRole)
      requires Valid()
      modifies this
      ensures Valid()
      ensures currentUser == Some(if role == Buyer then MockBuyer else MockVendor)
      ensures userStatus == Authenticated && userRole == Some(role)
      ensures cart == old(cart) && selectedLocation == old(selectedLocation)
    {
      currentUser := Some(if role == Buyer then MockBuyer else MockVendor);
      userStatus := Authenticated;
      userRole := Some(role);
    }

    /** `logout()`: back to a visitor with an empty cart. */
    method Logout()
      requires Valid()
      modifies this
      ensures Valid()
      ensures currentUser == None && userStatus == Visitor && userRole == None && cart == []
      ensures selectedLocation == old(selectedLocation)
    {
      currentUser := None;
      userStatus := Visitor;
      userRole := None;
      cart := [];
    }

    method SetSelectedLocation(location: string)
      requires Valid()
      modifies this
      ensures Valid()
      ensures selectedLocation == Some(location)
      ensures currentUser == old(currentUser) && userStatus == old(userStatus) && userRole == old(userRole)
      ensures cart == old(cart)
    {
      selectedLocation := Some(location);
    }

    method AddToCart(item: CartItem)
      requires Valid()
      modifies this
      ensures Valid()
      ensures cart == AddItem(old(cart), item)
      ensures currentUser == old(currentUser) && userStatus == old(userStatus) && userRole == old(userRole)
      ensures selectedLocation == old(selectedLocation)
    {
      UniqueAddItem(cart, item);
      cart := AddItem(cart, item);
    }

    method RemoveFromCart(productId: string)
      requires Valid()
      modifies this
      ensures Valid()
      ensures cart == Without(old(cart), productId)
      ensures currentUser == old(currentUser) && userStatus == old(userStatus) && userRole == old(userRole)
      ensures selectedLocation == old(selectedLocation)
    {
      UniqueWithout(cart, productId);
      cart := Without(cart, productId);
    }

    method UpdateCartQuantity(productId: string, quantity: int)
      requires Valid()
      modifies this
      ensures Valid()
      ensures cart == UpdateQuantity(old(cart), productId, quantity)
      ensures currentUser == old(currentUser) && userStatus == old(userStatus) && userRole == old(userRole)
      ensures selectedLocation == old(selectedLocation)
    {
      UniqueUpdate(cart, productId, quantity);
      if quantity <= 0 {
        RemoveFromCart(productId);
      } else {
        cart := SetQuantity(cart, productId, quantity);
      }
    }

    /** `clearCart()`: empties the cart and nothing else. */
    method ClearCart()
      requires Valid()
      modifies this
      ensures Valid()
      ensures cart == []
      ensures currentUser == old(currentUser) && userStatus == old(userStatus) && userRole == old(userRole)
      ensures selectedLocation == old(selectedLocation)
    {
      cart := [];
    }
  }
}
