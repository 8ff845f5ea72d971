/**
 * The base of every tracker: the item builder it was made with, the name of
 * a view script, and the filter that drops null entries from a payload.
 */
module Tracking {
  import opened PhpArray
  import opened PhpString

  /** A value in a tracking payload. */
  datatype Value = Null | Bool(b: bool) | Int(i: int) | Real(r: real) | Str(s: string)

  /** An ordered PHP array of payload entries. */
  type Payload = seq<(string, Value)>

  /** `(bool)$v`. */
  predicate ToBool(v: Value) {
    match v
    case Null => false
    case Bool(b) => b
    case Int(i) => i != 0
    case Real(r) => r != 0.0
    case Str(s) => !Falsy(s)
  }

  /** The item builder a tracker holds: the default implementation or a configured class. */
  datatype ItemBuilder = DefaultItemBuilder | ItemBuilderClass(className: string)

  // ---------------------------------------------------------------- filterNullValues

  /** An entry survives the filter when its value is not null or its key is protected. */
  predicate Kept(e: (string, Value), protectedKeys: seq<string>) {
    e.1 != Null || e.0 in protectedKeys
  }

  /** The entries of `data` that survive, in their original order. */
  function NonNullEntries(data: Payload, protectedKeys: seq<string>): (r: Payload)
    ensures forall e :: e in r <==> e in data && Kept(e, protectedKeys)
    ensures |r| <= |data|
  {
    if data == [] then []
    else
      var rest := NonNullEntries(data[1..], protectedKeys);
      assert forall e :: e in data <==> e == data[0] || e in data[1..];
      if Kept(data[0], protectedKeys) then [data[0]] + rest else rest
  }

  /** Filtering a concatenation filters each part: kept entries stay in order. */
  lemma {:induction false} NonNullEntriesAppend(a: Payload, b: Payload, protectedKeys: seq<string>)
    ensures NonNullEntries(a + b, protectedKeys) == NonNullEntries(a, protectedKeys) + NonNullEntries(b, protectedKeys)
  {
    if a != [] {
      assert (a + b)[1..] == a[1..] + b;
      NonNullEntriesAppend(a[1..], b, protectedKeys);
    } else {
      assert a + b == b;
    }
  }

  /** A single entry is kept exactly when it is kept. */
  lemma NonNullEntriesSingle(e: (string, Value), protectedKeys: seq<string>)
    ensures NonNullEntries([e], protectedKeys) == if Kept(e, protectedKeys) then [e] else []
  {
    assert [e][1..] == [];
  }

  /** Filtering twice equals filtering once. */
  lemma {:induction false} NonNullEntriesIdempotent(data: Payload, protectedKeys: seq<string>)
    ensures NonNullEntries(NonNullEntries(data, protectedKeys), protectedKeys) == NonNullEntries(data, protectedKeys)
  {
    if data != [] {
      NonNullEntriesIdempotent(data[1..], protectedKeys);
      var rest := NonNullEntries(data[1..], protectedKeys);
      if Kept(data[0], protectedKeys) {
        assert ([data[0]] + rest)[1..] == rest;
      }
    }
  }

  /** With no protected keys nothing null is left. */
  lemma NoNullsWithoutProtection(data: Payload)
    ensures forall i :: 0 <= i < |NonNullEntries(data, [])| ==> NonNullEntries(data, [])[i].1 != Null
  {
    var r := NonNullEntries(data, []);
    forall i | 0 <= i < |r| ensures r[i].1 != Null {
      assert r[i] in r;
    }
  }

  /** Keys of the filtered entries are keys of the input, so unique keys stay unique. */
  lemma {:induction false} NonNullEntriesUnique(data: Payload, protectedKeys: seq<string>)
    requires UniqueKeys(data)
    ensures UniqueKeys(NonNullEntries(data, protectedKeys))
  {
    if data != [] {
      UniqueCons(data);
      NonNullEntriesUnique(data[1..], protectedKeys);
      var rest := NonNullEntries(data[1..], protectedKeys);
      if Kept(data[0], protectedKeys) {
        assert data[0].0 !in Keys(rest) by {
          forall i | 0 <= i < |rest| ensures rest[i].0 != data[0].0 {
            assert rest[i] in data[1..];
            var j :| 0 <= j < |data[1..]| && data[1..][j] == rest[i];
            assert Keys(data[1..])[j] == rest[i].0;
          }
        }
        var r := [data[0]] + rest;
        assert r[1..] == rest;
        UniqueCons(r);
      }
    }
  }

  // ---------------------------------------------------------------- view scripts

  const ScriptHead: string := "PimcoreEcommerceFrameworkBundle:Tracking/"
  const ScriptTail: string := ".js.php"

  /** `getViewScript`: the template `<prefix>:<name>.js.php` of the tracking bundle. */
  function ViewScript(prefix: string, name: string): string {
    ScriptHead + prefix + ":" + name + ScriptTail
  }

  /** The index of the first `c` in `s`, or `|s|`. */
  function FirstIndex(c: char, s: string): (n: nat)
    ensures n <= |s| && c !in s[..n]
    ensures n < |s| ==> s[n] == c
  {
    if s == [] then 0
    else if s[0] == c then 0
    else
      var n := 1 + FirstIndex(c, s[1..]);
      assert s[..n] == [s[0]] + s[1..][..n - 1];
      n
  }

  /** The prefix and name a view-script path was made from, if it has the shape of one. */
  function ScriptParts(script: string): (parts: (string, string))
  {
    if |script| < |ScriptHead| + |ScriptTail| then ("", "")
    else
      var middle := script[|ScriptHead|..|script| - |ScriptTail|];
      var colon := FirstIndex(':', middle);
      (middle[..colon], if colon < |middle| then middle[colon + 1..] else "")
  }

  /** A view-script path determines its prefix and name, as long as the prefix has no colon. */
  lemma ViewScriptParts(prefix: string, name: string)
    requires ':' !in prefix
    ensures ScriptParts(ViewScript(prefix, name)) == (prefix, name)
  {
    var script := ViewScript(prefix, name);
    var middle := prefix + ":" + name;
    assert script == ScriptHead + middle + ScriptTail;
    assert script[|ScriptHead|..|script| - |ScriptTail|] == middle;
    FirstIndexAfter(':', prefix, name);
    assert middle[..|prefix|] == prefix;
    assert middle[|prefix| + 1..] == name;
  }

  lemma {:induction false} FirstIndexAfter(c: char, p: string, t: string)
    requires c !in p
    ensures FirstIndex(c, p + [c] + t) == |p|
  {
    if p != [] {
      assert (p + [c] + t)[1..] == p[1..] + [c] + t;
      FirstIndexAfter(c, p[1..], t);
    }
  }

  /** `Tracker`: holds the item builder and the view-script prefix of the concrete tracker. */
  class Tracker {
    const trackingItemBuilder: ItemBuilder
    const viewScriptPrefix: string

    constructor (trackingItemBuilder: ItemBuilder, viewScriptPrefix: string)
      ensures this.trackingItemBuilder == trackingItemBuilder && this.viewScriptPrefix == viewScriptPrefix
    {
      this.trackingItemBuilder := trackingItemBuilder;
      this.viewScriptPrefix := viewScriptPrefix;
    }

    /** `getTrackingItemBuilder` answers the builder given to the constructor. */
    method GetTrackingItemBuilder() returns (b: ItemBuilder)
      ensures b == trackingItemBuilder
    {
      b := trackingItemBuilder;
    }

    method GetViewScript(name: string) returns (script: string)
      ensures script == ViewScript(viewScriptPrefix, name)
    {
      script := ViewScript(viewScriptPrefix, name);
    }

    /** `filterNullValues`: copies every kept entry into the result, in order. */
    method FilterNullValues(data: Payload, protectedKeys: seq<string>) returns (r: Payload)
      requires UniqueKeys(data)
      ensures r == NonNullEntries(data, protectedKeys)
    {
      r := [];
      for i := 0 to |data|
        invariant r == NonNullEntries(data[..i], protectedKeys)
      {
        var (key, value) := data[i];
        NonNullEntriesAppend(data[..i], [data[i]], protectedKeys);
        NonNullEntriesSingle(data[i], protectedKeys);
        assert data[..i + 1] == data[..i] + [data[i]];
        if value != Null || key in protectedKeys {
          assert key !in Keys(r) by {
            forall j | 0 <= j < |r| ensures r[j].0 != key {
              assert r[j] in data[..i];
              var m :| 0 <= m < i && data[m] == r[j];
            }
          }
          r := Put(r, key, value);
        }
      }
      assert data[..|data|] == data;
    }
  }
}
