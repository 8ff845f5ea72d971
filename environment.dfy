/**
 * The per-request environment of the shop: custom items, the current user
 * id, the guest-cart flag and the assortment and checkout tenants, stored in
 * the session's environment bag. PHP values are modelled by `Value`, and
 * PHP's `(int)` cast and loose `!=` on them are spelled out.
 */
module ShopEnvironment {
  import opened Wrappers
  import opened PhpArray
  import opened PhpString

  /** A PHP value as the environment and its session bag hold it. */
  datatype Value = Null | Bool(b: bool) | Int(i: int) | Str(s: string) | Array(entries: seq<(string, Value)>)

  // ---------------------------------------------------------------- PHP conversions

  /** `(bool)$v`. */
  predicate ToBool(v: Value) {
    match v
    case Null => false
    case Bool(b) => b
    case Int(i) => i != 0
    case Str(s) => !Falsy(s)
    case Array(es) => es != []
  }

  /** The longest prefix of `s` made of decimal digits. */
  function LeadingDigits(s: string): (d: string)
    ensures AllDigits(d) && |d| <= |s| && d == s[..|d|]
    ensures |d| < |s| ==> !IsDigit(s[|d|])
  {
    if s != [] && IsDigit(s[0]) then
      var rest := LeadingDigits(s[1..]);
      assert s[..1 + |rest|] == [s[0]] + s[1..][..|rest|];
      [s[0]] + rest
    else []
  }

  /** A string of digits is its own leading-digit prefix. */
  lemma {:induction false} LeadingDigitsOfDigits(s: string)
    requires AllDigits(s)
    ensures LeadingDigits(s) == s
  {
    if s != [] {
      assert IsDigit(s[0]);
      LeadingDigitsOfDigits(s[1..]);
      assert s == [s[0]] + s[1..];
    }
  }

  /** `(int)` of a string: an optional sign and the leading digits; anything else counts as 0. */
  function StringToInt(s: string): int {
    if s != [] && s[0] == '-' then 0 - DigitsValue(LeadingDigits(s[1..])) as int
    else if s != [] && s[0] == '+' then DigitsValue(LeadingDigits(s[1..]))
    else DigitsValue(LeadingDigits(s))
  }

  /** `(int)$v`. */
  function IntCast(v: Value): int {
    match v
    case Null => 0
    case Bool(b) => if b then 1 else 0
    case Int(i) => i
    case Str(s) => StringToInt(s)
    case Array(es) => if es == [] then 0 else 1
  }

  /** Casting the decimal text of a number gives the number back. */
  lemma IntCastOfDecimal(n: nat)
    ensures IntCast(Str(NatToString(n))) == n
    ensures IntCast(Str("-" + NatToString(n))) == 0 - n
  {
    var d := NatToString(n);
    assert !IsDigit('-') && !IsDigit('+');
    assert d[0] != '-' && d[0] != '+';
    LeadingDigitsOfDigits(d);
    NatToStringValue(n);
    assert ("-" + d)[1..] == d;
  }

  /** A numeric string, as far as the model reads numbers: an optional minus and at least one digit. */
  predicate IsNumeric(s: string) {
    if s != [] && s[0] == '-' then |s| > 1 && AllDigits(s[1..]) else s != [] && AllDigits(s)
  }

  /** PHP's loose `==` between two values. */
  predicate LooseEquals(a: Value, b: Value) {
    match (a, b)
    case (Bool(x), _) => x == ToBool(b)
    case (_, Bool(y)) => ToBool(a) == y
    case (Null, Null) => true
    case (Null, Str(t)) => t == ""
    case (Str(s), Null) => s == ""
    case (Null, _) => !ToBool(b)
    case (_, Null) => !ToBool(a)
    case (Int(i), Int(j)) => i == j
    case (Int(i), Str(t)) => i == StringToInt(t)
    case (Str(s), Int(j)) => StringToInt(s) == j
    case (Str(s), Str(t)) => if IsNumeric(s) && IsNumeric(t) then StringToInt(s) == StringToInt(t) else s == t
    case (Array(x), Array(y)) => x == y
    case (_, _) => false
  }

  /** Loose equality does not depend on the order of its operands. */
  lemma LooseEqualsSymmetric(a: Value, b: Value)
    ensures LooseEquals(a, b) == LooseEquals(b, a)
  {
  }

  /** Loose equality holds between a value and itself. */
  lemma LooseEqualsReflexive(a: Value)
    ensures LooseEquals(a, a)
  {
  }

  /** Null is loosely equal to the empty string, and two numeric strings with the same number are equal. */
  lemma LooseEqualsExamples()
    ensures LooseEquals(Null, Str(""))
    ensures LooseEquals(Str("7"), Str("07"))
    ensures !LooseEquals(Str("a"), Str("b"))
  {
    assert IsNumeric("7") && IsNumeric("07");
    assert LeadingDigits("07") == "07" by {
      LeadingDigitsOfDigits("07");
    }
    assert LeadingDigits("7") == "7" by {
      LeadingDigitsOfDigits("7");
    }
    assert DigitsValue("07") == 7 by {
      assert "07"[..1] == "0";
    }
    assert !IsNumeric("a");
  }

  // ---------------------------------------------------------------- session storage

  const KeyCustomItems: string := "customitems"
  const KeyUserId: string := "userid"
  const KeyUseGuestCart: string := "useguestcart"
  const KeyAssortmentTenant: string := "currentassortmenttenant"
  const KeyAssortmentSubTenant: string := "currentassortmentsubtenant"
  const KeyCheckoutTenant: string := "currentcheckouttenant"

  /** The six session keys of the environment. */
  const SessionKeys: set<string> :=
    {KeyCustomItems, KeyUserId, KeyUseGuestCart, KeyAssortmentTenant, KeyAssortmentSubTenant, KeyCheckoutTenant}

  /** `USER_ID_NOT_SET`. */
  const UserIdNotSet: int := -1

  /** The environment's attribute bag in the session. */
  class EnvironmentBag {
    var attributes: map<string, Value>

    constructor (attributes: map<string, Value>)
      ensures this.attributes == attributes
    {
      this.attributes := attributes;
    }
  }

  /** `$sessionBag->get($key, $default)`. */
  function BagGet(attributes: map<string, Value>, key: string, default: Value): Value {
    if key in attributes then attributes[key] else default
  }

  /** The fields of the environment that the session stores, and the transient tenant. */
  datatype EnvState = EnvState(
    customItems: Value,
    userId: Value,
    useGuestCart: Value,
    assortmentTenant: Value,
    assortmentSubTenant: Value,
    checkoutTenant: Value,
    transientCheckoutTenant: Value)

  /** The state of a new environment before it reads the session. */
  const InitialState: EnvState := EnvState(Array([]), Int(UserIdNotSet), Bool(false), Null, Null, Null, Null)

  /** `loadFromSession`: both checkout tenants come from the same key; a missing key reads as null, custom items as `[]`. */
  function LoadState(attributes: map<string, Value>): (s: EnvState)
    ensures s.checkoutTenant == s.transientCheckoutTenant
    ensures KeyUserId !in attributes ==> s.userId == Null
    ensures KeyCustomItems !in attributes ==> s.customItems == Array([])
  {
    var checkout := BagGet(attributes, KeyCheckoutTenant, Null);
    EnvState(
      BagGet(attributes, KeyCustomItems, Array([])),
      BagGet(attributes, KeyUserId, Null),
      BagGet(attributes, KeyUseGuestCart, Null),
      BagGet(attributes, KeyAssortmentTenant, Null),
      BagGet(attributes, KeyAssortmentSubTenant, Null),
      checkout,
      checkout)
  }

  /** `save`: writes the persistent checkout tenant, never the transient one, and the five other fields. */
  function SaveAttributes(attributes: map<string, Value>, s: EnvState): (r: map<string, Value>)
    ensures r.Keys == attributes.Keys + SessionKeys
    ensures forall k :: k in attributes && k !in SessionKeys ==> r[k] == attributes[k]
  {
    attributes[KeyCustomItems := s.customItems][KeyUserId := s.userId]
      [KeyAssortmentTenant := s.assortmentTenant][KeyAssortmentSubTenant := s.assortmentSubTenant]
      [KeyCheckoutTenant := s.checkoutTenant][KeyUseGuestCart := s.useGuestCart]
  }

  /** Saving and loading again restores every stored field; the transient tenant becomes the persistent one. */
  lemma SaveThenLoad(attributes: map<string, Value>, s: EnvState)
    ensures LoadState(SaveAttributes(attributes, s)) == s.(transientCheckoutTenant := s.checkoutTenant)
  {
  }

  /** Loading a bag without the environment's keys gives a null user id, which counts as set. */
  lemma LoadWithoutUser(attributes: map<string, Value>)
    requires attributes.Keys !! SessionKeys
    ensures LoadState(attributes) == EnvState(Array([]), Null, Null, Null, Null, Null, Null)
    ensures LoadState(attributes).userId != Int(UserIdNotSet)
  {
  }

  /** The `TypeError` PHP raises when `getAllCustomItems` would return something other than an array. */
  const ReturnTypeError: string := "TypeError: Return value of getAllCustomItems() must be of the type array"

  /** `$this->customItems[$key]`, with null for a missing key or when there are no items. */
  function CustomItem(items: Value, key: string): Value {
    if items.Array? then Get(items.entries, key).GetOr(Null) else Null
  }

  /**
   * Whether `$items[$key] = $value` stores the entry: an array takes it, and
   * null or false first become an empty array; any other scalar stays as it
   * is (PHP warns that it cannot use a scalar value as an array).
   */
  predicate TakesEntries(items: Value) {
    items.Array? || items == Null || items == Bool(false)
  }

  /** The entries a write into `customItems` starts from. */
  function EntriesOf(items: Value): seq<(string, Value)>
    requires TakesEntries(items)
  {
    if items.Array? then items.entries else []
  }

  /** The environment object. */
  class Environment {
    const bag: EnvironmentBag
    /** `php_sapi_name() === 'cli'`: loading and saving are skipped. */
    const cli: bool
    const defaultCurrency: string
    var customItems: Value
    var userId: Value
    var useGuestCart: Value
    var currentAssortmentTenant: Value
    var currentAssortmentSubTenant: Value
    var currentCheckoutTenant: Value
    var currentTransientCheckoutTenant: Value
    /** How often `Factory::resetInstance()` was called. */
    var factoryResets: nat

    function State(): EnvState
      reads this
    {
      EnvState(customItems, userId, useGuestCart, currentAssortmentTenant, currentAssortmentSubTenant,
        currentCheckoutTenant, currentTransientCheckoutTenant)
    }

    /** The constructor reads the session (outside the command line) and sets the default currency, `EUR` if none is given. */
    constructor (bag: EnvironmentBag, cli: bool, defaultCurrency: Option<string>)
      ensures this.bag == bag && this.cli == cli
      ensures this.defaultCurrency == defaultCurrency.GetOr("EUR")
      ensures State() == if cli then InitialState else LoadState(bag.attributes)
      ensures factoryResets == 0
    {
      this.bag := bag;
      this.cli := cli;
      this.defaultCurrency := defaultCurrency.GetOr("EUR");
      customItems := Array([]);
      userId := Int(UserIdNotSet);
      useGuestCart := Bool(false);
      currentAssortmentTenant := Null;
      currentAssortmentSubTenant := Null;
      currentCheckoutTenant := Null;
      currentTransientCheckoutTenant := Null;
      factoryResets := 0;
      new;
      LoadFromSession();
    }

    /** `loadFromSession`. */
    method LoadFromSession()
      modifies this
      ensures State() == if cli then old(State()) else LoadState(bag.attributes)
      ensures factoryResets == old(factoryResets)
    {
      if cli {
        return;
      }
      var attributes := bag.attributes;
      customItems := BagGet(attributes, KeyCustomItems, Array([]));
      userId := BagGet(attributes, KeyUserId, Null);
      currentAssortmentTenant := BagGet(attributes, KeyAssortmentTenant, Null);
      currentAssortmentSubTenant := BagGet(attributes, KeyAssortmentSubTenant, Null);
      currentCheckoutTenant := BagGet(attributes, KeyCheckoutTenant, Null);
      currentTransientCheckoutTenant := BagGet(attributes, KeyCheckoutTenant, Null);
      useGuestCart := BagGet(attributes, KeyUseGuestCart, Null);
    }

    /** `save`. */
    method Save()
      modifies bag
      ensures bag.attributes == if cli then old(bag.attributes) else SaveAttributes(old(bag.attributes), State())
    {
      if cli {
        return;
      }
      var attributes := bag.attributes;
      attributes := attributes[KeyCustomItems := customItems];
      attributes := attributes[KeyUserId := userId];
      attributes := attributes[KeyAssortmentTenant := currentAssortmentTenant];
      attributes := attributes[KeyAssortmentSubTenant := currentAssortmentSubTenant];
      attributes := attributes[KeyCheckoutTenant := currentCheckoutTenant];
      attributes := attributes[KeyUseGuestCart := useGuestCart];
      bag.attributes := attributes;
    }

    /**
     * `getAllCustomItems(): array`: the custom items; once `clearEnvironment`
     * has set them to null (or the session held something else), the
     * declared return type raises a `TypeError`.
     */
    method GetAllCustomItems() returns (items: Result<seq<(string, Value)>, string>)
      ensures items.Ok? <==> customItems.Array?
      ensures items.Ok? ==> items.value == customItems.entries
      ensures items.Err? ==> items.error == ReturnTypeError
    {
      if customItems.Array? {
        items := Ok(customItems.entries);
      } else {
        items := Err(ReturnTypeError);
      }
    }

    method GetCustomItem(key: string) returns (v: Value)
      ensures v == CustomItem(customItems, key)
    {
      v := CustomItem(customItems, key);
    }

    /** `setCustomItem`: changes only the given key; custom items that are a non-null scalar stay as they are. */
    method SetCustomItem(key: string, value: Value)
      modifies this
      ensures customItems == if TakesEntries(old(customItems)) then Array(Put(EntriesOf(old(customItems)), key, value)) else old(customItems)
      ensures TakesEntries(old(customItems)) ==> CustomItem(customItems, key) == value
      ensures forall k :: k != key ==> CustomItem(customItems, k) == CustomItem(old(customItems), k)
      ensures State() == old(State()).(customItems := customItems) && factoryResets == old(factoryResets)
    {
      if TakesEntries(customItems) {
        customItems := Array(Put(EntriesOf(customItems), key, value));
      }
    }

    /** `removeCustomItem`: unsets only the given key; with no items there is nothing to unset. */
    method RemoveCustomItem(key: string)
      modifies this
      ensures customItems == if old(customItems).Array? then Array(Remove(old(customItems).entries, key)) else old(customItems)
      ensures CustomItem(customItems, key) == Null
      ensures forall k :: k != key ==> CustomItem(customItems, k) == CustomItem(old(customItems), k)
      ensures State() == old(State()).(customItems := customItems) && factoryResets == old(factoryResets)
    {
      if customItems.Array? {
        customItems := Array(Remove(customItems.entries, key));
      }
    }

    /** `getCurrentUserId`: the stored user id, which may be null after loading or clearing. */
    method GetCurrentUserId() returns (id: Value)
      ensures id == userId
    {
      id := userId;
    }

    /** `setCurrentUserId`: stores `(int)$userId`. */
    method SetCurrentUserId(id: Value)
      modifies this
      ensures userId == Int(IntCast(id))
      ensures State() == old(State()).(userId := userId) && factoryResets == old(factoryResets)
    {
      userId := Int(IntCast(id));
    }

    /** `hasCurrentUserId`: the user id is anything but the integer -1. */
    method HasCurrentUserId() returns (has: bool)
      ensures has <==> userId != Int(UserIdNotSet)
    {
      has := userId != Int(UserIdNotSet);
    }

    /** `clearEnvironment`: removes the six keys from the session, also on the command line, and resets the fields. */
    method ClearEnvironment()
      modifies this, bag
      ensures bag.attributes == old(bag.attributes) - SessionKeys
      ensures State() == EnvState(Null, Null, Bool(false), Null, Null, Null, Null)
      ensures factoryResets == old(factoryResets)
    {
      bag.attributes := bag.attributes - SessionKeys;
      customItems := Null;
      userId := Null;
      currentAssortmentTenant := Null;
      currentAssortmentSubTenant := Null;
      currentCheckoutTenant := Null;
      currentTransientCheckoutTenant := Null;
      useGuestCart := Bool(false);
    }

    method SetUseGuestCart(use: bool)
      modifies this
      ensures State() == old(State()).(useGuestCart := Bool(use)) && factoryResets == old(factoryResets)
    {
      useGuestCart := Bool(use);
    }

    method SetCurrentAssortmentTenant(tenant: Value)
      modifies this
      ensures State() == old(State()).(assortmentTenant := tenant) && factoryResets == old(factoryResets)
    {
      currentAssortmentTenant := tenant;
    }

    /** `getCurrentAssortmentTenant`. */
    method GetCurrentAssortmentTenant() returns (tenant: Value)
      ensures tenant == currentAssortmentTenant
    {
      tenant := currentAssortmentTenant;
    }

    method SetCurrentAssortmentSubTenant(subTenant: Value)
      modifies this
      ensures State() == old(State()).(assortmentSubTenant := subTenant) && factoryResets == old(factoryResets)
    {
      currentAssortmentSubTenant := subTenant;
    }

    /** `getCurrentAssortmentSubTenant`. */
    method GetCurrentAssortmentSubTenant() returns (subTenant: Value)
      ensures subTenant == currentAssortmentSubTenant
    {
      subTenant := currentAssortmentSubTenant;
    }

    /**
     * `setCurrentCheckoutTenant`: only a tenant loosely different from the
     * persistent one changes anything; it becomes the transient tenant, the
     * persistent one too when `persistent`, and the factory is reset.
     */
    method SetCurrentCheckoutTenant(tenant: Value, persistent: bool)
      modifies this
      ensures LooseEquals(old(currentCheckoutTenant), tenant) ==>
        State() == old(State()) && factoryResets == old(factoryResets)
      ensures !LooseEquals(old(currentCheckoutTenant), tenant) ==>
        && State() == old(State()).(checkoutTenant := if persistent then tenant else old(currentCheckoutTenant),
                                    transientCheckoutTenant := tenant)
        && factoryResets == old(factoryResets) + 1
    {
      if !LooseEquals(currentCheckoutTenant, tenant) {
        if persistent {
          currentCheckoutTenant := tenant;
        }
        currentTransientCheckoutTenant := tenant;
        factoryResets := factoryResets + 1;
      }
    }

    /** `getCurrentCheckoutTenant` answers the transient tenant. */
    method GetCurrentCheckoutTenant() returns (tenant: Value)
      ensures tenant == currentTransientCheckoutTenant
    {
      tenant := currentTransientCheckoutTenant;
    }
  }
}
