/** The price map `getPrices` returns (src/adaptors/sandclock/index.js:111-117).

    The price service answers with an object keyed by chain-qualified
    addresses (`"ethereum:0xAbC…"`) whose values carry a `price` field. The
    adaptor folds `Object.entries` of that object into a plain object keyed by
    the lower-cased address after the `:`. The HTTP request itself is not part
    of this model: its answer is the input `entries`, in `Object.entries`
    order. */
module Prices {
  import opened Wrappers
  import opened Text
  import opened BigDecimal

  /** The adaptor's chain: the prefix of every address it asks prices for,
      and the `chain` of every pool record. */
  const CHAIN: string := "ethereum"

  lemma ChainHasNoColon()
    ensures ':' !in CHAIN
  {
  }

  /** One `[address, price]` pair of `Object.entries(body.coins)`. */
  datatype PriceEntry = PriceEntry(key: string, price: real)

  /** `address.split(':')[1]` is `undefined` for a key without `:`, and
      calling `.toLowerCase()` on it throws, which rejects the whole run. */
  datatype PriceError = NoAddressPart(key: string)

  /** The key under which one entry is stored: the lower-cased second
      `:`-separated field of the response key; None where the code throws. */
  function AddressKey(key: string): (r: Option<string>)
    ensures r.None? <==> ':' !in key
    ensures r.Some? ==> HasNoUpper(r.value) && ':' !in r.value
  {
    match SecondField(key, ':')
    case None => None
    case Some(a) =>
      assert forall i :: 0 <= i < |a| ==> Lower(a)[i] != ':';
      Some(Lower(a))
  }

  /** The `reduce` with object spread, for a key computation `keyOf`: entries
      are added in order, so a later entry stored under the same key replaces
      an earlier one, and the first entry without a key throws. */
  function Reduce(entries: seq<PriceEntry>, keyOf: string -> Option<string>): (r: Result<map<string, real>, PriceError>)
    ensures r.Err? ==> exists i :: 0 <= i < |entries| && keyOf(entries[i].key).None? && r.error == NoAddressPart(entries[i].key)
    ensures r.Ok? ==> forall i :: 0 <= i < |entries| ==> keyOf(entries[i].key).Some? && keyOf(entries[i].key).value in r.value
    decreases |entries|
  {
    if entries == [] then Ok(map[])
    else
      match Reduce(entries[..|entries| - 1], keyOf)
      case Err(e) => Err(e)
      case Ok(acc) =>
        var last := entries[|entries| - 1];
        match keyOf(last.key)
        case None => Err(NoAddressPart(last.key))
        case Some(a) => Ok(acc[a := last.price])
  }

  /** `getPrices` without its HTTP request. */
  function PricesByAddress(entries: seq<PriceEntry>): (r: Result<map<string, real>, PriceError>)
    ensures r.Err? <==> exists i :: 0 <= i < |entries| && ':' !in entries[i].key
    ensures r.Err? ==> exists i :: 0 <= i < |entries| && ':' !in entries[i].key && r.error == NoAddressPart(entries[i].key)
    ensures r.Ok? ==> forall i :: 0 <= i < |entries| ==> AddressKey(entries[i].key).Some? && AddressKey(entries[i].key).value in r.value
  {
    Reduce(entries, AddressKey)
  }

  /** `prices[address]` used as a bignumber.js operand: a missing key is
      `undefined`, which bignumber.js turns into NaN. */
  function Lookup(prices: map<string, real>, address: string): (r: Num)
    ensures r.Finite? <==> address in prices
    ensures r.Finite? ==> r.value == prices[address]
  {
    if address in prices then Finite(prices[address]) else NaN
  }

  /** The fold fails exactly when some entry has no key, and then it
      reports the first such entry's response key. */
  lemma {:induction false} ReduceFails(entries: seq<PriceEntry>, keyOf: string -> Option<string>)
    ensures Reduce(entries, keyOf).Ok? <==>
      forall i :: 0 <= i < |entries| ==> keyOf(entries[i].key).Some?
    ensures Reduce(entries, keyOf).Err? ==>
      exists i :: 0 <= i < |entries| && keyOf(entries[i].key).None? &&
        Reduce(entries, keyOf).error == NoAddressPart(entries[i].key) &&
        forall j :: 0 <= j < i ==> keyOf(entries[j].key).Some?
  {
    if entries != [] {
      var init := entries[..|entries| - 1];
      ReduceFails(init, keyOf);
      assert forall i :: 0 <= i < |init| ==> init[i] == entries[i];
    }
  }

  /** Every stored key is the key of some entry, and every entry's key is
      stored. */
  lemma {:induction false} ReduceKeys(entries: seq<PriceEntry>, keyOf: string -> Option<string>, a: string)
    requires Reduce(entries, keyOf).Ok?
    ensures a in Reduce(entries, keyOf).value <==>
      exists i :: 0 <= i < |entries| && keyOf(entries[i].key) == Some(a)
  {
    if entries != [] {
      var init := entries[..|entries| - 1];
      ReduceKeys(init, keyOf, a);
      assert forall i :: 0 <= i < |init| ==> init[i] == entries[i];
    }
  }

  /** The price stored under a key is the price of the LAST entry with that
      key. */
  lemma {:induction false} LastEntryWins(entries: seq<PriceEntry>, keyOf: string -> Option<string>, i: nat, a: string)
    requires Reduce(entries, keyOf).Ok?
    requires i < |entries| && keyOf(entries[i].key) == Some(a)
    requires forall j :: i < j < |entries| ==> keyOf(entries[j].key) != Some(a)
    ensures a in Reduce(entries, keyOf).value
    ensures Reduce(entries, keyOf).value[a] == entries[i].price
  {
    var init := entries[..|entries| - 1];
    if i < |entries| - 1 {
      assert forall j :: 0 <= j < |init| ==> init[j] == entries[j];
      LastEntryWins(init, keyOf, i, a);
    }
  }

  /** Every key of the price map is a lower-case address: it holds no
      upper-case letter and no `:`. */
  lemma PriceKeysAreLowerCase(entries: seq<PriceEntry>, a: string)
    requires PricesByAddress(entries).Ok? && a in PricesByAddress(entries).value
    ensures HasNoUpper(a) && ':' !in a
  {
    ReduceKeys(entries, AddressKey, a);
    var i :| 0 <= i < |entries| && AddressKey(entries[i].key) == Some(a);
  }

  /** An address the adaptor asked for (`ethereum:<address>`), answered
      under a key that spells the address in any mix of cases, is found by
      the lower-cased lookup `prices[address.toLowerCase()]`, with the price
      of the last entry for it. */
  lemma QueriedAddressResolves(entries: seq<PriceEntry>, i: nat, answered: string, address: string)
    requires PricesByAddress(entries).Ok?
    requires i < |entries| && entries[i].key == CHAIN + [':'] + answered
    requires ':' !in answered && Lower(answered) == Lower(address)
    requires forall j :: i < j < |entries| ==> AddressKey(entries[j].key) != Some(Lower(address))
    ensures Lookup(PricesByAddress(entries).value, Lower(address)) == Finite(entries[i].price)
  {
    ChainHasNoColon();
    SecondFieldOf(CHAIN, answered, [], ':');
    assert CHAIN + [':'] + answered + [] == entries[i].key;
    assert AddressKey(entries[i].key) == Some(Lower(address));
    LastEntryWins(entries, AddressKey, i, Lower(address));
  }
}
