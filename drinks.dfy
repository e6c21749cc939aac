/**
  A drink: a validated size and base, fixed once the drink exists, and a set
  of flavor names that later calls may grow or replace without any check.
 */
module Drinks {
  import opened Wrappers
  import opened Catalogue

  /** Why a drink could not be made; the first failed check decides. */
  datatype DrinkError =
    | InvalidSize(size: string)
    | InvalidBase(base: string)
    | InvalidFlavors(flavors: seq<string>)

  /** The checked arguments of a drink that passed validation. */
  datatype Config = Config(size: Size, base: Base, flavors: set<string>)

  predicate Distinct(xs: seq<string>) {
    forall i, j :: 0 <= i < j < |xs| ==> xs[i] != xs[j]
  }

  function SetOf(xs: seq<string>): set<string> {
    set x | x in xs
  }

  /** Collecting a list into a set never adds elements, and loses some exactly when the list repeats one. */
  lemma {:induction false} SetOfCardinality(xs: seq<string>)
    ensures |SetOf(xs)| <= |xs|
    ensures |SetOf(xs)| == |xs| <==> Distinct(xs)
  {
    if xs != [] {
      var tail := xs[1..];
      SetOfCardinality(tail);
      assert SetOf(xs) == {xs[0]} + SetOf(tail) by {
        forall x ensures x in xs <==> x == xs[0] || x in tail {
          if x in xs {
            var k :| 0 <= k < |xs| && xs[k] == x;
            if k > 0 { assert tail[k - 1] == x; }
          }
        }
      }
      if xs[0] in tail {
        assert SetOf(xs) == SetOf(tail);
        var j :| 0 <= j < |tail| && tail[j] == xs[0];
        assert xs[j + 1] == xs[0];
      } else {
        assert xs[0] !in SetOf(tail);
        assert |SetOf(xs)| == 1 + |SetOf(tail)|;
        if Distinct(tail) {
          forall i, j | 0 <= i < j < |xs| ensures xs[i] != xs[j] {
            assert xs[j] == tail[j - 1];
            if i > 0 { assert xs[i] == tail[i - 1]; }
          }
        }
        if Distinct(xs) {
          forall i, j | 0 <= i < j < |tail| ensures tail[i] != tail[j] {
            assert tail[i] == xs[i + 1] && tail[j] == xs[j + 1];
          }
        }
      }
    }
  }

  /**
    The flavor set made from an optional list of names: `set(flavors) if
    flavors else set()`. Duplicates collapse; an absent or empty list gives {}.
   */
  function FlavorSet(flavors: Option<seq<string>>): (s: set<string>)
    ensures forall f :: f in s <==> flavors.Some? && f in flavors.value
    ensures flavors.Some? ==> |s| <= |flavors.value|
    ensures flavors.Some? ==> (|s| == |flavors.value| <==> Distinct(flavors.value))
  {
    match flavors
    case None => {}
    case Some(fs) => SetOfCardinality(fs); SetOf(fs)
  }

  /** Every flavor in `s` is one of the catalogue's flavors. */
  predicate InCatalogue(s: set<string>) {
    forall f :: f in s ==> f in FLAVOR_NAMES
  }

  /**
    The constructor's checks, in the constructor's order: the size, then the
    base, then (only for a present, non-empty list) every flavor.
   */
  function CheckDrink(size: string, base: string, flavors: Option<seq<string>>): (r: Result<Config, DrinkError>)
    ensures size !in SIZE_PRICES ==> r == Failure(InvalidSize(size))
    ensures size in SIZE_PRICES && base !in BASE_NAMES ==> r == Failure(InvalidBase(base))
    ensures size in SIZE_PRICES && base in BASE_NAMES && flavors.Some? && !InCatalogue(FlavorSet(flavors)) ==>
              r == Failure(InvalidFlavors(flavors.value))
    ensures r.Success? <==> size in SIZE_PRICES && base in BASE_NAMES && InCatalogue(FlavorSet(flavors))
    ensures r.Success? ==> SizeName(r.value.size) == size && BaseName(r.value.base) == base
    ensures r.Success? ==> r.value.flavors == FlavorSet(flavors)
  {
    match (ParseSize(size), ParseBase(base))
    case (None, _) => Failure(InvalidSize(size))
    case (Some(_), None) => Failure(InvalidBase(base))
    case (Some(z), Some(b)) =>
      if flavors.Some? && |flavors.value| > 0 && !(forall f :: f in flavors.value ==> f in FLAVOR_NAMES) then
        Failure(InvalidFlavors(flavors.value))
      else
        Success(Config(z, b, FlavorSet(flavors)))
  }

  class Drink {
    const size: Size
    const base: Base
    var flavors: set<string>

    /**
      Stores the fields of a drink whose arguments passed every check: its
      flavors must all be in the catalogue, as __init__ guarantees.
     */
    constructor (size: Size, base: Base, flavors: set<string>)
      requires InCatalogue(flavors)
      ensures this.size == size && this.base == base && this.flavors == flavors
      ensures FlavorsValid()
    {
      this.size := size;
      this.base := base;
      this.flavors := flavors;
    }

    /** True while every flavor of the drink is in the catalogue. */
    predicate FlavorsValid()
      reads this
    {
      InCatalogue(flavors)
    }

    /**
      Makes a drink from raw names, or reports the first failed check and
      makes nothing.
     */
    static method Create(size: string, base: string, flavors: Option<seq<string>>) returns (r: Result<Drink, DrinkError>)
      ensures r.Failure? ==> CheckDrink(size, base, flavors) == Failure(r.error)
      ensures r.Success? ==> CheckDrink(size, base, flavors).Success? && fresh(r.value)
      ensures r.Success? ==> r.value.GetSize() == size && r.value.GetBase() == base
      ensures r.Success? ==> r.value.flavors == FlavorSet(flavors) && r.value.FlavorsValid()
    {
      match CheckDrink(size, base, flavors)
      case Failure(e) =>
        r := Failure(e);
      case Success(c) =>
        var d := new Drink(c.size, c.base, c.flavors);
        r := Success(d);
    }

    /** The same membership test the constructor makes on the base. */
    static function IsValidBase(base: string): (r: bool)
      ensures r <==> exists b :: BaseName(b) == base
    {
      BaseNamesAreNames(base);
      base in BASE_NAMES
    }

    /** The same membership test the constructor makes on each flavor. */
    static function IsValidFlavor(flavor: string): (r: bool)
      ensures r <==> exists f :: FlavorName(f) == flavor
    {
      FlavorNamesAreNames(flavor);
      flavor in FLAVOR_NAMES
    }

    function GetSize(): (s: string)
      ensures ParseSize(s) == Some(size)
    {
      SizeRoundTrip(size);
      SizeName(size)
    }

    function GetBase(): (s: string)
      ensures ParseBase(s) == Some(base)
    {
      BaseRoundTrip(base);
      BaseName(base)
    }

    /** The flavors as a list, each exactly once, in no particular order. */
    method GetFlavors() returns (fs: seq<string>)
      ensures forall f :: f in fs <==> f in flavors
      ensures Distinct(fs)
      ensures |fs| == |flavors|
    {
      fs := [];
      var rest := flavors;
      while rest != {}
        invariant rest <= flavors
        invariant forall f :: f in fs <==> f in flavors && f !in rest
        invariant Distinct(fs)
        invariant |fs| + |rest| == |flavors|
        decreases |rest|
      {
        var f :| f in rest;
        fs := fs + [f];
        rest := rest - {f};
      }
    }

    function GetNumFlavors(): (n: nat)
      reads this
      ensures n == |flavors|
      ensures n == 0 <==> flavors == {}
    {
      |flavors|
    }

    /**
      Adds a flavor unless it is already there. No check is made: an unknown
      name is stored, and the drink's flavors are then no longer all valid.
     */
    method AddFlavor(flavor: string)
      modifies this
      ensures flavors == old(flavors) + {flavor}
      ensures flavor in old(flavors) ==> flavors == old(flavors)
      ensures flavor !in old(flavors) ==> GetNumFlavors() == old(GetNumFlavors()) + 1
      ensures old(FlavorsValid()) ==> (FlavorsValid() <==> IsValidFlavor(flavor))
    {
      if flavor !in flavors {
        flavors := flavors + {flavor};
      }
    }

    /**
      Replaces the flavors by the set of the given names; an absent or empty
      list clears them. No check is made.
     */
    method SetFlavors(flavors: Option<seq<string>>)
      modifies this
      ensures this.flavors == FlavorSet(flavors)
      ensures FlavorsValid() <==> (flavors.Some? ==> forall i :: 0 <= i < |flavors.value| ==> IsValidFlavor(flavors.value[i]))
    {
      this.flavors := FlavorSet(flavors);
    }

    /** The price of the drink's size, looked up by the size's name. */
    function GetPrice(): (p: real)
      ensures GetSize() in SIZE_PRICES
      ensures MIN_PRICE <= p <= MAX_PRICE
    {
      SIZE_PRICES[GetSize()]
    }
  }

  /** is_valid_base agrees with the constructor's test of the base, given a valid size. */
  lemma IsValidBaseMatchesConstructor(size: string, base: string, flavors: Option<seq<string>>)
    requires size in SIZE_PRICES
    ensures CheckDrink(size, base, flavors) == Failure(InvalidBase(base)) <==> !Drink.IsValidBase(base)
  {
  }

  /** is_valid_flavor agrees with the constructor's test of the flavor list, given a valid size and base. */
  lemma IsValidFlavorMatchesConstructor(size: string, base: string, fs: seq<string>)
    requires size in SIZE_PRICES && base in BASE_NAMES
    ensures CheckDrink(size, base, Some(fs)).Success? <==> forall i :: 0 <= i < |fs| ==> Drink.IsValidFlavor(fs[i])
  {
  }

  /**
    The drink of the unit tests: a medium pokeacola with lemon, to which
    cherry is added, giving two flavors at the medium price.
   */
  method ExampleAddFlavor() returns (count: nat, price: real)
    ensures count == 2 && price == 1.75
  {
    var r := Drink.Create("medium", "pokeacola", Some(["lemon"]));
    assert r.Success?;
    var d := r.value;
    assert d.flavors == {"lemon"};
    d.AddFlavor("cherry");
    d.AddFlavor("cherry");
    count := d.GetNumFlavors();
    price := d.GetPrice();
  }
}
