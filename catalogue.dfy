/**
  The shop's fixed catalogues: the four cup sizes with their prices, the six
  bases and the six flavors. Every name is case-sensitive ("Mega" but "small").
 */
module Catalogue {
  import opened Wrappers

  datatype Size = Small | Medium | Large | Mega

  datatype Base = Water | Sbrite | Pokeacola | MrSalt | HillFog | LeafWine

  /**
    The flavors as values. Drinks keep flavor names as strings, because
    adding or replacing flavors stores any name unchecked; this type is only a
    reference definition of which names are valid.
   */
  datatype Flavor = Lemon | Cherry | Strawberry | Mint | Blueberry | Lime

  /** The price of a drink, in dollars, keyed by the name of its size. */
  const SIZE_PRICES: map<string, real> :=
    map["small" := 1.50, "medium" := 1.75, "large" := 2.05, "Mega" := 2.15]

  const BASE_NAMES: set<string> :=
    {"water", "sbrite", "pokeacola", "Mr. Salt", "hill fog", "leaf wine"}

  const FLAVOR_NAMES: set<string> :=
    {"lemon", "cherry", "strawberry", "mint", "blueberry", "lime"}

  /** The cheapest and the dearest entry of SIZE_PRICES. */
  const MIN_PRICE: real := 1.50
  const MAX_PRICE: real := 2.15

  function SizeName(z: Size): (s: string)
    ensures s in SIZE_PRICES
    ensures MIN_PRICE <= SIZE_PRICES[s] <= MAX_PRICE
  {
    match z
    case Small => "small"
    case Medium => "medium"
    case Large => "large"
    case Mega => "Mega"
  }

  function BaseName(b: Base): (s: string)
    ensures s in BASE_NAMES
  {
    match b
    case Water => "water"
    case Sbrite => "sbrite"
    case Pokeacola => "pokeacola"
    case MrSalt => "Mr. Salt"
    case HillFog => "hill fog"
    case LeafWine => "leaf wine"
  }

  function FlavorName(f: Flavor): (s: string)
    ensures s in FLAVOR_NAMES
  {
    match f
    case Lemon => "lemon"
    case Cherry => "cherry"
    case Strawberry => "strawberry"
    case Mint => "mint"
    case Blueberry => "blueberry"
    case Lime => "lime"
  }

  /** The size a name denotes; None for any name that is not a key of SIZE_PRICES. */
  function ParseSize(s: string): (r: Option<Size>)
    ensures r.Some? <==> s in SIZE_PRICES
    ensures r.Some? ==> SizeName(r.value) == s
  {
    if s == "small" then Some(Small)
    else if s == "medium" then Some(Medium)
    else if s == "large" then Some(Large)
    else if s == "Mega" then Some(Mega)
    else None
  }

  /** The base a name denotes; None for any name outside BASE_NAMES. */
  function ParseBase(s: string): (r: Option<Base>)
    ensures r.Some? <==> s in BASE_NAMES
    ensures r.Some? ==> BaseName(r.value) == s
  {
    if s == "water" then Some(Water)
    else if s == "sbrite" then Some(Sbrite)
    else if s == "pokeacola" then Some(Pokeacola)
    else if s == "Mr. Salt" then Some(MrSalt)
    else if s == "hill fog" then Some(HillFog)
    else if s == "leaf wine" then Some(LeafWine)
    else None
  }

  /** The flavor a name denotes; None for any name outside FLAVOR_NAMES. */
  function ParseFlavor(s: string): (r: Option<Flavor>)
    ensures r.Some? <==> s in FLAVOR_NAMES
    ensures r.Some? ==> FlavorName(r.value) == s
  {
    if s == "lemon" then Some(Lemon)
    else if s == "cherry" then Some(Cherry)
    else if s == "strawberry" then Some(Strawberry)
    else if s == "mint" then Some(Mint)
    else if s == "blueberry" then Some(Blueberry)
    else if s == "lime" then Some(Lime)
    else None
  }

  /** MIN_PRICE and MAX_PRICE are reached, by small and by Mega, so [MIN_PRICE, MAX_PRICE] is the tight range of prices. */
  lemma PriceBoundsReached()
    ensures SIZE_PRICES[SizeName(Small)] == MIN_PRICE
    ensures SIZE_PRICES[SizeName(Mega)] == MAX_PRICE
  {
  }

  /** Naming is one-to-one, so parsing a size's name gives that size back. */
  lemma SizeRoundTrip(z: Size)
    ensures ParseSize(SizeName(z)) == Some(z)
  {
  }

  lemma BaseRoundTrip(b: Base)
    ensures ParseBase(BaseName(b)) == Some(b)
  {
  }

  /** A string is in BASE_NAMES exactly when it is the name of some base. */
  lemma BaseNamesAreNames(s: string)
    ensures s in BASE_NAMES <==> exists b :: BaseName(b) == s
  {
    if s in BASE_NAMES {
      assert BaseName(ParseBase(s).value) == s;
    }
  }

  /** A string is in FLAVOR_NAMES exactly when it is the name of some flavor. */
  lemma FlavorNamesAreNames(s: string)
    ensures s in FLAVOR_NAMES <==> exists f :: FlavorName(f) == s
  {
    if s in FLAVOR_NAMES {
      assert FlavorName(ParseFlavor(s).value) == s;
    }
  }
}
