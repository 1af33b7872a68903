/**
 * A Web Storage area (window.sessionStorage or window.localStorage): an
 * ordered list of key/value pairs with unique keys, `key(i)` giving the key
 * at position i. Browsers choose that order; this model fixes one: `setItem`
 * on a key already present updates it in place and on a new key appends,
 * and `removeItem` keeps the remaining keys in order, so the keys after the
 * removed one move down by one position.
 */
module WebStorage {
  import opened Wrappers
  import opened JsValue

  /**
   * What a stored string stands for: text JSON.parse accepts, modelled by
   * the value it parses to, or text it rejects with a SyntaxError.
   */
  datatype Blob = JsonText(value: Value) | OtherText(text: string)

  datatype Item = Item(key: string, blob: Blob)

  function KeysOf(items: seq<Item>): (ks: seq<string>)
    ensures |ks| == |items|
    ensures forall i :: 0 <= i < |items| ==> ks[i] == items[i].key
  {
    if items == [] then [] else [items[0].key] + KeysOf(items[1..])
  }

  /** No key occurs twice. */
  predicate UniqueKeys(items: seq<Item>) {
    items == [] || (items[0].key !in KeysOf(items[1..]) && UniqueKeys(items[1..]))
  }

  /** `getItem(key)`: the value stored under key, None standing for null. */
  function Lookup(items: seq<Item>, key: string): (r: Option<Blob>)
    ensures r.Some? <==> key in KeysOf(items)
    ensures r.Some? ==> Item(key, r.value) in items
  {
    if items == [] then None
    else if items[0].key == key then Some(items[0].blob)
    else Lookup(items[1..], key)
  }

  /** `setItem(key, blob)`. */
  function Put(items: seq<Item>, key: string, blob: Blob): (r: seq<Item>)
    ensures Lookup(r, key) == Some(blob)
    ensures forall k :: k != key ==> Lookup(r, k) == Lookup(items, k)
    ensures forall it :: it in items && it.key != key ==> it in r
    ensures forall it :: it in r ==> it in items || it == Item(key, blob)
  {
    if items == [] then [Item(key, blob)]
    else if items[0].key == key then [Item(key, blob)] + items[1..]
    else [items[0]] + Put(items[1..], key, blob)
  }

  /** `removeItem(key)`; a key that is absent leaves the area as it was. */
  function Delete(items: seq<Item>, key: string): (r: seq<Item>)
    ensures Lookup(r, key) == None
    ensures forall k :: k != key ==> Lookup(r, k) == Lookup(items, k)
    ensures forall it :: it in r <==> it in items && it.key != key
    ensures key !in KeysOf(items) ==> r == items
    ensures |r| <= |items|
  {
    if items == [] then []
    else if items[0].key == key then Delete(items[1..], key)
    else [items[0]] + Delete(items[1..], key)
  }

  lemma {:induction false} PutKeepsUnique(items: seq<Item>, key: string, blob: Blob)
    requires UniqueKeys(items)
    ensures UniqueKeys(Put(items, key, blob))
  {
    if items != [] && items[0].key != key {
      PutKeepsUnique(items[1..], key, blob);
      PutKeepsKeys(items[1..], key, blob, items[0].key);
    } else if items != [] {
      assert KeysOf(Put(items, key, blob)[1..]) == KeysOf(items[1..]);
    }
  }

  /** setItem adds no key other than its own. */
  lemma PutKeepsKeys(items: seq<Item>, key: string, blob: Blob, k: string)
    requires k != key && k !in KeysOf(items)
    ensures k !in KeysOf(Put(items, key, blob))
  {
    assert Lookup(Put(items, key, blob), k) == Lookup(items, k);
  }

  lemma {:induction false} DeleteKeepsUnique(items: seq<Item>, key: string)
    requires UniqueKeys(items)
    ensures UniqueKeys(Delete(items, key))
  {
    if items != [] {
      DeleteKeepsUnique(items[1..], key);
      if items[0].key != key {
        var k := items[0].key;
        assert Lookup(Delete(items[1..], key), k) == Lookup(items[1..], k);
      }
    }
  }

  class Store {
    var items: seq<Item>

    ghost predicate Valid()
      reads this
    {
      UniqueKeys(items)
    }

    constructor (initial: seq<Item>)
      requires UniqueKeys(initial)
      ensures Valid() && items == initial
    {
      items := initial;
    }

    method GetItem(key: string) returns (r: Option<Blob>)
      ensures r == Lookup(items, key)
    {
      r := Lookup(items, key);
    }

    method SetItem(key: string, blob: Blob)
      requires Valid()
      modifies this
      ensures Valid()
      ensures items == Put(old(items), key, blob)
    {
      PutKeepsUnique(items, key, blob);
      items := Put(items, key, blob);
    }

    method RemoveItem(key: string)
      requires Valid()
      modifies this
      ensures Valid()
      ensures items == Delete(old(items), key)
    {
      DeleteKeepsUnique(items, key);
      items := Delete(items, key);
    }

    /** `length`. */
    method Length() returns (n: nat)
      ensures n == |items|
    {
      n := |items|;
    }

    /** `key(i)`: the key at position i, None standing for null past the end. */
    method Key(i: nat) returns (r: Option<string>)
      ensures i < |items| ==> r == Some(items[i].key)
      ensures |items| <= i ==> r == None
    {
      if i < |items| {
        r := Some(items[i].key);
      } else {
        r := None;
      }
    }
  }
}
