/** Symbol lookup with the `"Unknown"` fallback, and the asset-class
    classifier that buckets a symbol by its dotted prefix. */
module Symbols {
  import opened Wrappers

  /** The fallback symbol and the fallback asset type. */
  const Unknown: string := "Unknown"

  /** The classifier's prefixes, in the order it tries them. */
  const AssetPrefixes: seq<string> := ["Commodities.", "Crypto.", "FX.", "Equity.", "Metal.", "Rates."]

  /** Every value the classifier can return. */
  const AssetTypes: set<string> := {"Commodities", "Crypto", "FX", "Equity", "Metal", "Rates", Unknown}

  /** The bucket a prefix names: the prefix without its trailing dot. */
  function BucketOf(prefix: string): string
    requires |prefix| > 0
  {
    prefix[..|prefix| - 1]
  }

  /** JavaScript `value || fallback` on a possibly undefined string:
      both `undefined` and the empty string are falsy. */
  function OrElse(value: Option<string>, fallback: string): string
  {
    match value
    case Some(s) => if s != "" then s else fallback
    case None => fallback
  }

  /** `PRICE_MAP.get(priceId) || 'Unknown'`. */
  function LookupSymbol(priceMap: map<string, string>, priceId: string): (symbol: string)
    ensures symbol != ""
    ensures priceId in priceMap && priceMap[priceId] != "" ==> symbol == priceMap[priceId]
    ensures priceId !in priceMap ==> symbol == Unknown
    ensures priceId in priceMap && priceMap[priceId] == "" ==> symbol == Unknown
    ensures symbol == Unknown || symbol in priceMap.Values
  {
    OrElse(Get(priceMap, priceId), Unknown)
  }

  /** The first prefix in `AssetPrefixes` that `symbol` starts with, if any. */
  predicate FirstMatch(symbol: string, i: int)
  {
    && 0 <= i < |AssetPrefixes|
    && AssetPrefixes[i] <= symbol
    && forall j :: 0 <= j < i ==> !(AssetPrefixes[j] <= symbol)
  }

  /** The if/else-if chain of the handler, one `startsWith` test per branch. */
  function ClassifyAsset(symbol: string): (assetType: string)
    ensures assetType in AssetTypes
  {
    if "Commodities." <= symbol then "Commodities"
    else if "Crypto." <= symbol then "Crypto"
    else if "FX." <= symbol then "FX"
    else if "Equity." <= symbol then "Equity"
    else if "Metal." <= symbol then "Metal"
    else if "Rates." <= symbol then "Rates"
    else Unknown
  }

  /** The chain agrees with the table: the first matching prefix names the
      bucket, and the result is `"Unknown"` exactly when no prefix matches. */
  lemma ClassifyFirstMatch(symbol: string)
    ensures ClassifyAsset(symbol) == Unknown <==> forall i :: 0 <= i < |AssetPrefixes| ==> !(AssetPrefixes[i] <= symbol)
    ensures forall i :: FirstMatch(symbol, i) ==> ClassifyAsset(symbol) == BucketOf(AssetPrefixes[i])
  {
    var t := ClassifyAsset(symbol);
    forall i | 0 <= i < |AssetPrefixes|
      ensures AssetPrefixes[i] <= symbol ==> t != Unknown
      ensures FirstMatch(symbol, i) ==> t == BucketOf(AssetPrefixes[i])
    {
      var p := AssetPrefixes[i];
      if i == 0 {
        assert p == "Commodities." && BucketOf(p) == "Commodities";
      } else if i == 1 {
        assert p == "Crypto." && BucketOf(p) == "Crypto";
      } else if i == 2 {
        assert p == "FX." && BucketOf(p) == "FX";
      } else if i == 3 {
        assert p == "Equity." && BucketOf(p) == "Equity";
      } else if i == 4 {
        assert p == "Metal." && BucketOf(p) == "Metal";
      } else {
        assert p == "Rates." && BucketOf(p) == "Rates";
      }
      if FirstMatch(symbol, i) {
        forall j | 0 <= j < i ensures !(AssetPrefixes[j] <= symbol) {}
      }
    }
    if t != Unknown {
      assert exists i :: 0 <= i < |AssetPrefixes| && AssetPrefixes[i] <= symbol by {
        if t == "Commodities" { assert AssetPrefixes[0] <= symbol; }
        else if t == "Crypto" { assert AssetPrefixes[1] <= symbol; }
        else if t == "FX" { assert AssetPrefixes[2] <= symbol; }
        else if t == "Equity" { assert AssetPrefixes[3] <= symbol; }
        else if t == "Metal" { assert AssetPrefixes[4] <= symbol; }
        else { assert AssetPrefixes[5] <= symbol; }
      }
    }
  }

  /** The first two characters tell the six prefixes apart. */
  lemma HeadsDistinct(i: int, j: int)
    requires 0 <= i < |AssetPrefixes| && 0 <= j < |AssetPrefixes|
    requires AssetPrefixes[i][..2] == AssetPrefixes[j][..2]
    ensures i == j
  {
    var heads := ["Co", "Cr", "FX", "Eq", "Me", "Ra"];
    forall k | 0 <= k < |AssetPrefixes| ensures AssetPrefixes[k][..2] == heads[k] {
      if k == 0 {} else if k == 1 {} else if k == 2 {} else if k == 3 {} else if k == 4 {} else {}
    }
  }

  /** No symbol starts with two of the prefixes. */
  lemma PrefixesExclusive(symbol: string, i: int, j: int)
    requires 0 <= i < |AssetPrefixes| && 0 <= j < |AssetPrefixes|
    requires AssetPrefixes[i] <= symbol && AssetPrefixes[j] <= symbol
    ensures i == j
  {
    assert |AssetPrefixes[i]| >= 3 && |AssetPrefixes[j]| >= 3;
    assert AssetPrefixes[i][..2] == symbol[..2] == AssetPrefixes[j][..2];
    HeadsDistinct(i, j);
  }

  /** So the priority order does not matter: any matching prefix decides the bucket. */
  lemma ClassifyAnyMatch(symbol: string, i: int)
    requires 0 <= i < |AssetPrefixes|
    requires AssetPrefixes[i] <= symbol
    ensures ClassifyAsset(symbol) == BucketOf(AssetPrefixes[i])
  {
    forall j | 0 <= j < i
      ensures !(AssetPrefixes[j] <= symbol)
    {
      if AssetPrefixes[j] <= symbol {
        PrefixesExclusive(symbol, i, j);
      }
    }
    assert FirstMatch(symbol, i);
    ClassifyFirstMatch(symbol);
  }

  /** An identifier with no usable entry in the map is `"Unknown"` in both labels. */
  lemma UnmappedIsUnknown(priceMap: map<string, string>, priceId: string)
    requires priceId !in priceMap || priceMap[priceId] == ""
    ensures LookupSymbol(priceMap, priceId) == Unknown
    ensures ClassifyAsset(LookupSymbol(priceMap, priceId)) == Unknown
  {
    assert Unknown[0] == 'U';
  }
}
