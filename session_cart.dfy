/**
 * The cart kept in the user's session. Saved carts live, serialized, in the
 * `carts` attribute of the session's cart bag, keyed by cart id; the carts
 * read back from the bag are cached once per request in a static array.
 * PHP's `serialize`, `unserialize` and `uniqid` are outside the model: the
 * serialized form of a cart and the unique suffix are parameters, and the id
 * an unserialized cart reports is a function of its serialized form.
 */
module SessionCart {
  import opened Wrappers
  import opened PhpArray
  import opened PhpString

  /** The `carts` attribute: cart id to serialized cart. */
  type Carts = seq<(string, string)>

  /** The cart bag of the session; `carts` is None while the attribute is not set. */
  class SessionBag {
    var carts: Option<Carts>

    constructor (carts: Option<Carts>)
      ensures this.carts == carts
    {
      this.carts := carts;
    }
  }

  /** `getSessionBag` replaces an unset or empty `carts` by an empty array. */
  function InitCarts(carts: Option<Carts>): Carts {
    if carts.Some? then carts.value else []
  }

  /** `getSessionBag`: makes sure the bag holds a `carts` array. */
  method GetSessionBag(bag: SessionBag)
    modifies bag
    ensures bag.carts == Some(InitCarts(old(bag.carts)))
  {
    if bag.carts.None? || bag.carts.value == [] {
      bag.carts := Some([]);
    }
  }

  /** An item of a cart, with its back-reference to the cart and its sub-items. */
  class CartItem {
    var cart: SessionCart?
    const subItems: seq<CartItem>

    constructor (subItems: seq<CartItem>)
      ensures this.subItems == subItems && cart == null
    {
      this.subItems := subItems;
      cart := null;
    }
  }

  /** `$this->getId()` is falsy: null, `""` or `"0"`. */
  predicate NoId(id: Option<string>) {
    id.None? || Falsy(id.value)
  }

  /** The prefix `uniqid('sesscart_')` puts before its unique suffix. */
  const IdPrefix: string := "sesscart_"

  /** The properties `__sleep` leaves out of the serialized cart. */
  const BlockedVars: seq<string> := ["creationDate", "modificationDate", "priceCalcuator"]

  /** The property names of `vars` that are not blocked, in their order. */
  function KeptVars(vars: seq<string>): seq<string> {
    if vars == [] then []
    else KeptVars(vars[..|vars| - 1]) + (if vars[|vars| - 1] in BlockedVars then [] else [vars[|vars| - 1]])
  }

  /** A name is kept exactly when it is one of the names and not blocked. */
  lemma {:induction false} KeptVarsMembers(vars: seq<string>)
    ensures forall v :: v in KeptVars(vars) <==> v in vars && v !in BlockedVars
  {
    if vars != [] {
      var init, last := vars[..|vars| - 1], vars[|vars| - 1];
      KeptVarsMembers(init);
      assert vars == init + [last];
    }
  }

  /** Keeping the kept names again keeps them all: the filter is idempotent. */
  lemma {:induction false} KeptVarsIdempotent(vars: seq<string>)
    ensures KeptVars(KeptVars(vars)) == KeptVars(vars)
  {
    if vars != [] {
      var init, last := vars[..|vars| - 1], vars[|vars| - 1];
      KeptVarsIdempotent(init);
      var kept := KeptVars(init);
      if last in BlockedVars {
        assert KeptVars(vars) == kept + [] == kept;
      } else {
        assert KeptVars(vars) == kept + [last];
        var twice := kept + [last];
        assert twice[..|twice| - 1] == kept && twice[|twice| - 1] == last;
        calc {
          KeptVars(twice);
          KeptVars(kept) + [last];
          kept + [last];
        }
      }
    }
  }

  /** Filtering the concatenation filters each part. */
  lemma {:induction false} KeptVarsAppend(vars: seq<string>, more: seq<string>)
    ensures KeptVars(vars + more) == KeptVars(vars) + KeptVars(more)
  {
    if more == [] {
      assert vars + more == vars;
    } else {
      var init := more[..|more| - 1];
      assert (vars + more)[..|vars + more| - 1] == vars + init;
      KeptVarsAppend(vars, init);
    }
  }

  /** Sorted under `cmp`: no item compares above its successor. */
  predicate Sorted(s: seq<CartItem>, cmp: (CartItem, CartItem) -> int) {
    forall i :: 0 <= i < |s| - 1 ==> cmp(s[i], s[i + 1]) <= 0
  }

  /** `x` put before the first item it does not compare above. */
  function Insert(x: CartItem, s: seq<CartItem>, cmp: (CartItem, CartItem) -> int): (r: seq<CartItem>)
    requires forall y :: y in s && cmp(x, y) > 0 ==> cmp(y, x) <= 0
    requires Sorted(s, cmp)
    ensures Sorted(r, cmp)
    ensures multiset(r) == multiset(s) + multiset{x}
    ensures |r| == |s| + 1 && (r[0] == x || r[0] == s[0])
  {
    if s == [] then [x]
    else if cmp(x, s[0]) <= 0 then
      assert forall i :: 1 <= i < |s| ==> ([x] + s)[i] == s[i - 1];
      [x] + s
    else
      SortedTail(s, cmp);
      var rest := Insert(x, s[1..], cmp);
      InsertBehind(x, s, cmp, rest);
      [s[0]] + rest
  }

  lemma SortedTail(s: seq<CartItem>, cmp: (CartItem, CartItem) -> int)
    requires |s| > 0 && Sorted(s, cmp)
    ensures Sorted(s[1..], cmp)
  {
    forall i | 0 <= i < |s| - 2 ensures cmp(s[1..][i], s[1..][i + 1]) <= 0 {
      assert s[1..][i] == s[i + 1] && s[1..][i + 1] == s[i + 2];
    }
  }

  /** Putting the head of a sorted list in front of the tail with `x` inserted keeps it sorted. */
  lemma InsertBehind(x: CartItem, s: seq<CartItem>, cmp: (CartItem, CartItem) -> int, rest: seq<CartItem>)
    requires |s| > 0 && Sorted(s, cmp) && cmp(x, s[0]) > 0 && cmp(s[0], x) <= 0
    requires Sorted(rest, cmp) && multiset(rest) == multiset(s[1..]) + multiset{x}
    requires |rest| == |s| && (rest[0] == x || (|s| > 1 && rest[0] == s[1]))
    ensures Sorted([s[0]] + rest, cmp)
    ensures multiset([s[0]] + rest) == multiset(s) + multiset{x}
  {
    var r := [s[0]] + rest;
    forall i | 0 <= i < |r| - 1 ensures cmp(r[i], r[i + 1]) <= 0 {
      if i > 0 {
        assert r[i] == rest[i - 1] && r[i + 1] == rest[i];
      }
    }
    assert s == [s[0]] + s[1..];
  }

  /** The static cache of unserialized carts, shared by every session cart of the request. */
  class CartCache {
    var unserializedCarts: Option<Carts>

    constructor ()
      ensures unserializedCarts == None
    {
      unserializedCarts := None;
    }
  }

  /** The cache filled from the bag: each serialized cart under the id it reports, later ones winning. */
  function Loaded(carts: Carts, idOf: string -> string): (es: Carts)
    ensures |es| == |carts|
    ensures forall i :: 0 <= i < |carts| ==> es[i] == (idOf(carts[i].1), carts[i].1)
  {
    seq(|carts|, i requires 0 <= i < |carts| => (idOf(carts[i].1), carts[i].1))
  }

  /** An array with unique keys is rebuilt exactly by writing its entries, in order, into an empty one. */
  lemma {:induction false} PutAllIntoEmpty(es: Carts)
    requires UniqueKeys(es)
    ensures PutAll([], es) == es
  {
    if es != [] {
      var init, last := es[..|es| - 1], es[|es| - 1];
      UniqueKeysOfPrefix(es);
      PutAllIntoEmpty(init);
      assert last.0 !in Keys(init) by {
        KeysSnoc(es);
      }
      assert init + [last] == es;
    }
  }

  /**
   * When every serialized cart reports the id it is stored under, the cache
   * holds exactly the bag's carts, in the bag's order.
   */
  lemma CacheMatchesBag(carts: Carts, idOf: string -> string)
    requires UniqueKeys(carts)
    requires forall i :: 0 <= i < |carts| ==> idOf(carts[i].1) == carts[i].0
    ensures PutAll([], Loaded(carts, idOf)) == carts
  {
    assert Loaded(carts, idOf) == carts;
    PutAllIntoEmpty(carts);
  }

  /** `getAllCartsForUser`: fills the cache from the bag on the first call and returns it. */
  method GetAllCartsForUser(cache: CartCache, bag: SessionBag, userId: int, idOf: string -> string) returns (r: Carts)
    modifies cache, bag
    ensures old(cache.unserializedCarts).Some? ==>
      r == old(cache.unserializedCarts).value && cache.unserializedCarts == old(cache.unserializedCarts)
      && bag.carts == old(bag.carts)
    ensures old(cache.unserializedCarts).None? ==>
      && bag.carts == Some(InitCarts(old(bag.carts)))
      && r == PutAll([], Loaded(bag.carts.value, idOf))
      && cache.unserializedCarts == Some(r)
  {
    if cache.unserializedCarts.None? {
      GetSessionBag(bag);
      var loaded := LoadCarts(bag.carts.value, idOf);
      cache.unserializedCarts := Some(loaded);
    }
    r := cache.unserializedCarts.value;
  }

  /** The loop of `getAllCartsForUser`: each serialized cart stored under the id it reports. */
  method LoadCarts(carts: Carts, idOf: string -> string) returns (loaded: Carts)
    ensures loaded == PutAll([], Loaded(carts, idOf))
  {
    var es := Loaded(carts, idOf);
    loaded := [];
    var i := 0;
    while i < |carts|
      invariant 0 <= i <= |carts|
      invariant loaded == PutAll([], es[..i])
    {
      assert es[..i + 1][..i] == es[..i];
      loaded := Put(loaded, idOf(carts[i].1), carts[i].1);
      i := i + 1;
    }
    assert es[..|carts|] == es;
  }

  /** `getById`: the cached cart stored under `id`, or null. */
  method GetById(cache: CartCache, bag: SessionBag, id: string, idOf: string -> string) returns (r: Option<string>)
    modifies cache, bag
    ensures cache.unserializedCarts.Some? && r == Get(cache.unserializedCarts.value, id)
    ensures old(cache.unserializedCarts).Some? ==> cache.unserializedCarts == old(cache.unserializedCarts)
  {
    var carts := GetAllCartsForUser(cache, bag, -1, idOf);
    r := Get(carts, id);
  }

  /** A cart held in the session. */
  class SessionCart {
    var id: Option<string>
    var items: seq<CartItem>
    var ignoreReadonly: bool
    /** Set by `modified()`, which marks the cart as changed. */
    var isModified: bool

    constructor (id: Option<string>, items: seq<CartItem>)
      ensures this.id == id && this.items == items && !ignoreReadonly && !isModified
    {
      this.id := id;
      this.items := items;
      ignoreReadonly := false;
      isModified := false;
    }

    /**
     * `save`: gives an unsaved cart the id `sesscart_<suffix>` and stores
     * `serialized`, the cart's serialized form, under its id.
     */
    method Save(bag: SessionBag, suffix: string, serialized: string)
      modifies this, bag
      ensures id == if NoId(old(id)) then Some(IdPrefix + suffix) else old(id)
      ensures bag.carts == Some(Put(InitCarts(old(bag.carts)), id.value, serialized))
      ensures forall k :: k != id.value ==> Get(bag.carts.value, k) == Get(InitCarts(old(bag.carts)), k)
      ensures items == old(items) && ignoreReadonly == old(ignoreReadonly) && isModified == old(isModified)
    {
      GetSessionBag(bag);
      if NoId(id) {
        id := Some(IdPrefix + suffix);
      }
      var carts := bag.carts.value;
      carts := Put(carts, id.value, serialized);
      bag.carts := Some(carts);
    }

    /** `delete`: removes a saved cart from the bag and empties it; an unsaved cart throws. */
    method Delete(bag: SessionBag) returns (r: Result<(), string>)
      modifies this, bag
      ensures ignoreReadonly && id == old(id)
      ensures r.Err? <==> NoId(id)
      ensures r.Err? ==>
        && r.error == "Cart saved not yet."
        && bag.carts == Some(InitCarts(old(bag.carts)))
        && items == old(items)
      ensures r.Ok? ==> bag.carts == Some(Remove(InitCarts(old(bag.carts)), id.value)) && items == [] && isModified
      ensures r.Err? ==> isModified == old(isModified)
    {
      ignoreReadonly := true;
      GetSessionBag(bag);
      if NoId(id) {
        r := Err("Cart saved not yet.");
        return;
      }
      // `clear()`: the items go and the cart is marked as modified
      items := [];
      isModified := true;
      var carts := bag.carts.value;
      carts := Remove(carts, id.value);
      bag.carts := Some(carts);
      r := Ok(());
    }

    /** `sortItems`: reorders the items by a comparator that never ranks two items above each other. */
    method SortItems(cmp: (CartItem, CartItem) -> int)
      requires forall a, b :: a in items && b in items && cmp(a, b) > 0 ==> cmp(b, a) <= 0
      modifies this
      ensures Sorted(items, cmp) && multiset(items) == multiset(old(items))
      ensures id == old(id) && ignoreReadonly == old(ignoreReadonly) && isModified == old(isModified)
    {
      var sorted: seq<CartItem> := [];
      var i := 0;
      while i < |items|
        invariant 0 <= i <= |items|
        invariant Sorted(sorted, cmp) && multiset(sorted) == multiset(items[..i])
      {
        assert items[..i + 1] == items[..i] + [items[i]];
        forall y | y in sorted ensures y in items {
          assert y in multiset(items[..i]);
        }
        sorted := Insert(items[i], sorted, cmp);
        i := i + 1;
      }
      assert items[..|items|] == items;
      items := sorted;
    }

    /** `__sleep`: the parent's property names without the blocked ones. */
    method Sleep(vars: seq<string>) returns (finalVars: seq<string>)
      ensures finalVars == KeptVars(vars)
    {
      finalVars := [];
      var i := 0;
      while i < |vars|
        invariant 0 <= i <= |vars|
        invariant finalVars == KeptVars(vars[..i])
      {
        assert vars[..i + 1][..i] == vars[..i];
        if vars[i] !in BlockedVars {
          finalVars := finalVars + [vars[i]];
        }
        i := i + 1;
      }
      assert vars[..|vars|] == vars;
    }

    /** The items and their sub-items, whose back-references `__wakeup` sets. */
    static function ItemObjects(items: seq<CartItem>): set<CartItem> {
      (set it | it in items) + (set it, sub | it in items && sub in it.subItems :: sub)
    }

    /** `__wakeup`: points every item and sub-item back at this cart and marks the cart modified. */
    method Wakeup()
      modifies this, ItemObjects(items)
      ensures items == old(items) && id == old(id)
      ensures forall it :: it in items ==> it.cart == this
      ensures forall it, sub :: it in items && sub in it.subItems ==> sub.cart == this
      ensures isModified && !ignoreReadonly
    {
      ignoreReadonly := true;
      var i := 0;
      while i < |items|
        invariant 0 <= i <= |items|
        invariant items == old(items) && id == old(id)
        invariant forall j :: 0 <= j < i ==> items[j].cart == this
        invariant forall j, sub :: 0 <= j < i && sub in items[j].subItems ==> sub.cart == this
      {
        var item := items[i];
        assert item in ItemObjects(items);
        item.cart := this;
        var k := 0;
        while k < |item.subItems|
          invariant 0 <= k <= |item.subItems|
          invariant items == old(items) && id == old(id) && item.cart == this
          invariant forall j :: 0 <= j < i ==> items[j].cart == this
          invariant forall j, sub :: 0 <= j < i && sub in items[j].subItems ==> sub.cart == this
          invariant forall m :: 0 <= m < k ==> item.subItems[m].cart == this
        {
          assert item in items && item.subItems[k] in item.subItems;
          assert item.subItems[k] in ItemObjects(items);
          item.subItems[k].cart := this;
          k := k + 1;
        }
        i := i + 1;
      }
      isModified := true;
      ignoreReadonly := false;
    }
  }
}
