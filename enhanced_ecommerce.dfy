/**
 * The Google Analytics enhanced e-commerce tracker: it shapes product,
 * checkout and transaction data into payloads and emits one rendered view
 * script per tracking call, preceded once per instance by the dependency
 * script. Rendering is not modelled: the emitted code is the list of view
 * scripts with the parameters they were given.
 */
module EnhancedEcommerce {
  import opened Wrappers
  import opened PhpArray
  import opened Tracking

  /** A product in a view, cart action or checkout (`ProductAction`). */
  datatype ProductAction = ProductAction(
    id: Value, name: Value, category: Value, brand: Value, variant: Value,
    price: real, quantity: Value, position: Value, coupon: Value)

  /** A product in a list (`ProductImpression`). */
  datatype ProductImpression = ProductImpression(
    id: Value, name: Value, category: Value, brand: Value, variant: Value,
    price: real, list: Value, position: Value)

  /** A completed order (`Transaction`). */
  datatype Transaction = Transaction(id: Value, affiliation: Value, total: real, tax: real, shipping: real)

  /** The parameter bag handed to a view script; absent entries are `None`. */
  datatype Parameters = Parameters(
    productData: Option<Payload>,
    action: Option<string>,
    items: Option<seq<ProductAction>>,
    calls: Option<seq<Payload>>,
    actionData: Option<Payload>,
    transaction: Option<Payload>,
    dependencies: Option<seq<string>>)

  const NoParameters: Parameters := Parameters(None, None, None, None, None, None, None)

  /** A rendered view script added to the page before the page view. */
  datatype Snippet = Snippet(script: string, parameters: Parameters)

  const Prefix: string := "analytics/enhanced"

  // ---------------------------------------------------------------- amounts

  /** `round($x, 2)` on exact decimals: to the nearest cent, halves away from zero. */
  function Round2(x: real): (r: real)
    ensures -(1.0 / 200.0) <= r - x <= 1.0 / 200.0
    ensures (r * 100.0).Floor as real == r * 100.0
    ensures r - x == 1.0 / 200.0 ==> x > 0.0
    ensures x - r == 1.0 / 200.0 ==> x < 0.0
  {
    var cents := if x >= 0.0 then (x * 100.0 + 0.5).Floor else -(-x * 100.0 + 0.5).Floor;
    assert cents as real - 0.5 <= x * 100.0 <= cents as real + 0.5;
    assert x >= 0.0 ==> cents as real > x * 100.0 - 0.5;
    assert x < 0.0 ==> cents as real < x * 100.0 + 0.5;
    WholeCents(cents);
    cents as real / 100.0
  }

  /** A whole number of cents, read back in cents, is whole. */
  lemma WholeCents(cents: int)
    ensures (cents as real / 100.0 * 100.0).Floor == cents
  {
    assert cents as real / 100.0 * 100.0 == cents as real;
  }

  // ---------------------------------------------------------------- payloads

  /** `$item->getQuantity() ?: 1`. */
  function QuantityOf(q: Value): (v: Value)
    ensures v != Null && ToBool(v)
    ensures ToBool(q) ==> v == q
  {
    if ToBool(q) then q else Int(1)
  }

  /** The nine fields of a product action before null values are dropped. */
  function ActionFields(item: ProductAction): Payload {
    [("id", item.id), ("name", item.name), ("category", item.category), ("brand", item.brand),
     ("variant", item.variant), ("price", Real(Round2(item.price))), ("quantity", QuantityOf(item.quantity)),
     ("position", item.position), ("coupon", item.coupon)]
  }

  /** `transformProductAction`: the non-null fields; price and quantity are always there. */
  function TransformProductAction(item: ProductAction): (p: Payload)
    ensures forall e :: e in p <==> e in ActionFields(item) && e.1 != Null
    ensures ("price", Real(Round2(item.price))) in p
    ensures ("quantity", QuantityOf(item.quantity)) in p
    ensures forall e :: e in p ==> e.1 != Null
  {
    var fields := ActionFields(item);
    assert fields[5] == ("price", Real(Round2(item.price))) && fields[6] == ("quantity", QuantityOf(item.quantity));
    NonNullEntries(fields, [])
  }

  /** A product action carries the quantity it was given, or 1 when that is falsy. */
  lemma ActionQuantity(item: ProductAction, quantity: Value)
    ensures ToBool(quantity) ==> ("quantity", quantity) in TransformProductAction(item.(quantity := quantity))
    ensures !ToBool(quantity) ==> ("quantity", Int(1)) in TransformProductAction(item.(quantity := quantity))
  {
  }

  /** The eight fields of a product impression before null values are dropped. */
  function ImpressionFields(item: ProductImpression): Payload {
    [("id", item.id), ("name", item.name), ("category", item.category), ("brand", item.brand),
     ("variant", item.variant), ("price", Real(Round2(item.price))), ("list", item.list), ("position", item.position)]
  }

  /** `transformProductImpression`: the non-null fields; price is always there. */
  function TransformProductImpression(item: ProductImpression): (p: Payload)
    ensures forall e :: e in p <==> e in ImpressionFields(item) && e.1 != Null
    ensures ("price", Real(Round2(item.price))) in p
  {
    var fields := ImpressionFields(item);
    assert fields[5] == ("price", Real(Round2(item.price)));
    NonNullEntries(fields, [])
  }

  /** The product data of a product view: a product action without price and quantity. */
  function ProductViewData(item: ProductAction): (p: Payload)
    ensures "price" !in Keys(p) && "quantity" !in Keys(p)
    ensures forall k :: k != "price" && k != "quantity" ==> Get(p, k) == Get(TransformProductAction(item), k)
  {
    var withoutPrice := Remove(TransformProductAction(item), "price");
    Remove(withoutPrice, "quantity")
  }

  /**
   * `v` is the amount `x` to the cent: a whole number of cents within half a
   * cent of `x`, and an exact half cent goes away from zero.
   */
  predicate CentsOf(v: Value, x: real) {
    && v.Real?
    && -(1.0 / 200.0) <= v.r - x <= 1.0 / 200.0
    && (v.r * 100.0).Floor as real == v.r * 100.0
    && (v.r - x == 1.0 / 200.0 ==> x > 0.0)
    && (x - v.r == 1.0 / 200.0 ==> x < 0.0)
  }

  /** `transformTransaction`: id, affiliation (empty when falsy) and the three amounts rounded to cents. */
  function TransformTransaction(t: Transaction): (p: Payload)
    ensures Keys(p) == ["id", "affilation", "revenue", "tax", "shipping"]
    ensures p[0].1 == t.id
    ensures ToBool(t.affiliation) ==> p[1].1 == t.affiliation
    ensures !ToBool(t.affiliation) ==> p[1].1 == Str("")
    ensures CentsOf(p[2].1, t.total) && CentsOf(p[3].1, t.tax) && CentsOf(p[4].1, t.shipping)
  {
    [("id", t.id), ("affilation", if ToBool(t.affiliation) then t.affiliation else Str("")),
     ("revenue", Real(Round2(t.total))), ("tax", Real(Round2(t.tax))), ("shipping", Real(Round2(t.shipping)))]
  }

  /** The calls of a checkout: one transformed product action per item, in order. */
  function CheckoutCalls(items: seq<ProductAction>): (calls: seq<Payload>)
    ensures |calls| == |items|
    ensures forall i :: 0 <= i < |items| ==> calls[i] == TransformProductAction(items[i])
  {
    seq(|items|, i requires 0 <= i < |items| => TransformProductAction(items[i]))
  }

  /** The action data of a checkout step: present when a step number or option is given; the option only when given. */
  function CheckoutStepActionData(stepNumber: Value, checkoutOption: Value): (a: Option<Payload>)
    ensures a.Some? <==> stepNumber != Null || checkoutOption != Null
    ensures a.Some? ==> |a.value| >= 1 && a.value[0] == ("step", stepNumber)
    ensures a.Some? ==> (("option", checkoutOption) in a.value <==> checkoutOption != Null)
    ensures a.Some? ==> |a.value| == if checkoutOption != Null then 2 else 1
  {
    if stepNumber != Null || checkoutOption != Null then
      Some([("step", stepNumber)] + if checkoutOption != Null then [("option", checkoutOption)] else [])
    else None
  }

  // ---------------------------------------------------------------- emitted code

  const DependencyScript: string := ViewScript(Prefix, "dependencies")

  /** What `ensureDependencies` emits: the dependency script once, unless already done or there is nothing to include. */
  function DependencySnippets(included: bool, dependencies: seq<string>): (s: seq<Snippet>)
    ensures |s| <= 1
    ensures s != [] <==> !included && dependencies != []
    ensures forall i :: 0 <= i < |s| ==> s[i].script == DependencyScript
  {
    if included || dependencies == [] then []
    else [Snippet(DependencyScript, NoParameters.(dependencies := Some(dependencies)))]
  }

  /** How many dependency scripts a list of snippets holds. */
  function DependencyCount(code: seq<Snippet>): nat {
    if code == [] then 0
    else DependencyCount(code[..|code| - 1]) + (if code[|code| - 1].script == DependencyScript then 1 else 0)
  }

  lemma {:induction false} DependencyCountAppend(a: seq<Snippet>, b: seq<Snippet>)
    ensures DependencyCount(a + b) == DependencyCount(a) + DependencyCount(b)
  {
    if b != [] {
      assert (a + b)[..|a + b| - 1] == a + b[..|b| - 1];
      DependencyCountAppend(a, b[..|b| - 1]);
    } else {
      assert a + b == a;
    }
  }

  /** A view script of this tracker other than the dependency script is not counted as one. */
  lemma OtherScript(name: string)
    requires name != "dependencies"
    ensures ViewScript(Prefix, name) != DependencyScript
  {
    assert ':' !in Prefix;
    ViewScriptParts(Prefix, name);
    ViewScriptParts(Prefix, "dependencies");
  }

  /** The tracker `EnhancedEcommerce`. */
  class EnhancedEcommerce {
    const trackingItemBuilder: ItemBuilder
    var dependencies: seq<string>
    var dependenciesIncluded: bool
    /** The code added to the page, in order. */
    var code: seq<Snippet>

    /** The dependency script appears exactly once once it is included, and never before. */
    predicate Valid()
      reads this
    {
      DependencyCount(code) == (if dependenciesIncluded then 1 else 0)
    }

    constructor (trackingItemBuilder: ItemBuilder)
      ensures this.trackingItemBuilder == trackingItemBuilder
      ensures dependencies == ["ec"] && !dependenciesIncluded && code == []
      ensures Valid()
    {
      this.trackingItemBuilder := trackingItemBuilder;
      dependencies := ["ec"];
      dependenciesIncluded := false;
      code := [];
    }

    /** `ensureDependencies`. */
    method EnsureDependencies()
      requires Valid()
      modifies this
      ensures code == old(code) + DependencySnippets(old(dependenciesIncluded), dependencies)
      ensures dependenciesIncluded == (old(dependenciesIncluded) || dependencies != [])
      ensures dependencies == old(dependencies) && Valid()
    {
      if dependenciesIncluded || dependencies == [] {
        assert code + [] == code;
        return;
      }
      var snippet := Snippet(ViewScript(Prefix, "dependencies"), NoParameters.(dependencies := Some(dependencies)));
      DependencyCountAppend(code, [snippet]);
      assert DependencyCount([snippet]) == 1 by {
        assert [snippet][..0] == [];
      }
      code := code + [snippet];
      dependenciesIncluded := true;
    }

    /** Adds the rendered `name` script; it is not the dependency script. */
    method Emit(name: string, parameters: Parameters)
      requires Valid() && name != "dependencies"
      modifies this
      ensures code == old(code) + [Snippet(ViewScript(Prefix, name), parameters)]
      ensures dependencies == old(dependencies) && dependenciesIncluded == old(dependenciesIncluded) && Valid()
    {
      var snippet := Snippet(ViewScript(Prefix, name), parameters);
      OtherScript(name);
      DependencyCountAppend(code, [snippet]);
      assert DependencyCount([snippet]) == 0 by {
        assert [snippet][..0] == [];
      }
      code := code + [snippet];
    }

    method TrackProductView(item: ProductAction)
      requires Valid()
      modifies this
      ensures code == old(code) + DependencySnippets(old(dependenciesIncluded), dependencies)
                     + [Snippet(ViewScript(Prefix, "product_view"), NoParameters.(productData := Some(ProductViewData(item))))]
      ensures dependenciesIncluded == (old(dependenciesIncluded) || dependencies != [])
      ensures dependencies == old(dependencies) && Valid()
    {
      EnsureDependencies();
      var productData := TransformProductAction(item);
      productData := Remove(productData, "price");
      productData := Remove(productData, "quantity");
      Emit("product_view", NoParameters.(productData := Some(productData)));
    }

    method TrackProductImpression(item: ProductImpression)
      requires Valid()
      modifies this
      ensures code == old(code) + DependencySnippets(old(dependenciesIncluded), dependencies)
                     + [Snippet(ViewScript(Prefix, "product_impression"),
                                NoParameters.(productData := Some(TransformProductImpression(item))))]
      ensures dependenciesIncluded == (old(dependenciesIncluded) || dependencies != [])
      ensures dependencies == old(dependencies) && Valid()
    {
      EnsureDependencies();
      Emit("product_impression", NoParameters.(productData := Some(TransformProductImpression(item))));
    }

    method TrackProductActionAdd(item: ProductAction, quantity: Value)
      requires Valid()
      modifies this
      ensures code == old(code) + DependencySnippets(old(dependenciesIncluded), dependencies)
                     + [ActionSnippet(item, "add", quantity)]
      ensures dependenciesIncluded == (old(dependenciesIncluded) || dependencies != [])
      ensures dependencies == old(dependencies) && Valid()
    {
      EnsureDependencies();
      TrackProductAction(item, "add", quantity);
    }

    method TrackProductActionRemove(item: ProductAction, quantity: Value)
      requires Valid()
      modifies this
      ensures code == old(code) + DependencySnippets(old(dependenciesIncluded), dependencies)
                     + [ActionSnippet(item, "remove", quantity)]
      ensures dependenciesIncluded == (old(dependenciesIncluded) || dependencies != [])
      ensures dependencies == old(dependencies) && Valid()
    {
      EnsureDependencies();
      TrackProductAction(item, "remove", quantity);
    }

    /** `trackProductAction`: the item with the given quantity, and the action. */
    static function ActionSnippet(item: ProductAction, action: string, quantity: Value): (s: Snippet)
      ensures s.parameters.action == Some(action)
      ensures s.parameters.productData.Some?
      ensures ("quantity", QuantityOf(quantity)) in s.parameters.productData.value
    {
      Snippet(ViewScript(Prefix, "product_action"),
              NoParameters.(productData := Some(TransformProductAction(item.(quantity := quantity))), action := Some(action)))
    }

    method TrackProductAction(item: ProductAction, action: string, quantity: Value)
      requires Valid()
      modifies this
      ensures code == old(code) + [ActionSnippet(item, action, quantity)]
      ensures dependencies == old(dependencies) && dependenciesIncluded == old(dependenciesIncluded) && Valid()
    {
      var withQuantity := item.(quantity := quantity);
      Emit("product_action", NoParameters.(productData := Some(TransformProductAction(withQuantity)), action := Some(action)));
    }

    /** `trackCheckout`: the items, one call per item, and step 1. */
    method TrackCheckout(items: seq<ProductAction>)
      requires Valid()
      modifies this
      ensures code == old(code) + DependencySnippets(old(dependenciesIncluded), dependencies)
                     + [Snippet(ViewScript(Prefix, "checkout"),
                                NoParameters.(items := Some(items), calls := Some(CheckoutCalls(items)),
                                              actionData := Some([("step", Int(1))])))]
      ensures dependenciesIncluded == (old(dependenciesIncluded) || dependencies != [])
      ensures dependencies == old(dependencies) && Valid()
    {
      EnsureDependencies();
      var calls := BuildCheckoutCalls(items);
      Emit("checkout", NoParameters.(items := Some(items), calls := Some(calls), actionData := Some([("step", Int(1))])));
    }

    /** `trackCheckoutStep`: the items, no calls, and action data only for a given step number or option. */
    method TrackCheckoutStep(items: seq<ProductAction>, stepNumber: Value, checkoutOption: Value)
      requires Valid()
      modifies this
      ensures code == old(code) + DependencySnippets(old(dependenciesIncluded), dependencies)
                     + [Snippet(ViewScript(Prefix, "checkout"),
                                NoParameters.(items := Some(items), calls := Some([]),
                                              actionData := CheckoutStepActionData(stepNumber, checkoutOption)))]
      ensures dependenciesIncluded == (old(dependenciesIncluded) || dependencies != [])
      ensures dependencies == old(dependencies) && Valid()
    {
      EnsureDependencies();
      var parameters := NoParameters.(items := Some(items), calls := Some([]));
      if stepNumber != Null || checkoutOption != Null {
        var actionData := [("step", stepNumber)];
        if checkoutOption != Null {
          actionData := actionData + [("option", checkoutOption)];
        } else {
          assert actionData + [] == actionData;
        }
        parameters := parameters.(actionData := Some(actionData));
      }
      assert parameters.actionData == CheckoutStepActionData(stepNumber, checkoutOption);
      Emit("checkout", parameters);
    }

    /** `trackCheckoutComplete`: the transaction, the items and one call per item. */
    method TrackCheckoutComplete(transaction: Transaction, items: seq<ProductAction>)
      requires Valid()
      modifies this
      ensures code == old(code) + DependencySnippets(old(dependenciesIncluded), dependencies)
                     + [Snippet(ViewScript(Prefix, "checkout_complete"),
                                NoParameters.(transaction := Some(TransformTransaction(transaction)), items := Some(items),
                                              calls := Some(CheckoutCalls(items))))]
      ensures dependenciesIncluded == (old(dependenciesIncluded) || dependencies != [])
      ensures dependencies == old(dependencies) && Valid()
    {
      EnsureDependencies();
      var calls := BuildCheckoutCompleteCalls(transaction, items);
      Emit("checkout_complete", NoParameters.(transaction := Some(TransformTransaction(transaction)), items := Some(items),
                                              calls := Some(calls)));
    }

    /** `buildCheckoutCalls`: transforms each item in turn. */
    static method BuildCheckoutCalls(items: seq<ProductAction>) returns (calls: seq<Payload>)
      ensures calls == CheckoutCalls(items)
    {
      calls := [];
      for i := 0 to |items|
        invariant calls == CheckoutCalls(items)[..i]
      {
        SliceSnoc(CheckoutCalls(items), i);
        calls := calls + [TransformProductAction(items[i])];
      }
    }

    /** `buildCheckoutCompleteCalls`: the same calls as a checkout; the transaction plays no part. */
    static method BuildCheckoutCompleteCalls(transaction: Transaction, items: seq<ProductAction>) returns (calls: seq<Payload>)
      ensures calls == CheckoutCalls(items)
    {
      calls := BuildCheckoutCalls(items);
    }
  }

  /** Once included, further tracking calls never add the dependency script again. */
  lemma IncludedOnce(code: seq<Snippet>, dependencies: seq<string>, more: seq<Snippet>)
    requires DependencyCount(code) == 1 && DependencyCount(more) == 0
    ensures DependencyCount(code + DependencySnippets(true, dependencies) + more) == 1
  {
    assert code + DependencySnippets(true, dependencies) == code;
    DependencyCountAppend(code, more);
  }
}
