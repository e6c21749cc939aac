# Refresher drinks and orders, modelled in Dafny

This project models the point-of-sale core of a small beverage shop, `refresher.py`. It has two parts:

- A **drink** is a cup size (small, medium, large, Mega), a base (water, sbrite, pokeacola, Mr. Salt, hill fog, leaf wine) and a set of flavors (lemon, cherry, strawberry, mint, blueberry, lime). Construction checks the size, then the base, then the flavors, and reports the first failed check. The price depends only on the size.
- An **order** is a list of drinks in the order they were added. Its tax (7.5% of each price) and its total (subtotal plus tax) are computed from that list.

Files:

- `wrappers.dfy`: `Option` and `Result`.
- `catalogue.dfy`: the size/price table, the base and flavor name sets, the enumerations `Size`, `Base` and `Flavor`, and parsing a name into its enumeration value. The source never turns a flavor name into a value, and drinks keep flavor names as strings. `Flavor`, `FlavorName` and `ParseFlavor` are only a reference definition of the valid flavor names, against which `IsValidFlavor` is stated.
- `drinks.dfy`: the constructor's checks as the pure function `CheckDrink`, and the class `Drink`.
- `orders.dfy`: the price sums `Subtotal` and `Tax`, and the class `Order`.

Modelling choices:

- Money is Dafny `real`, so the decimal prices 1.50, 1.75, 2.05 and 2.15 and the rate 0.075 are exact. For example, medium + large + Mega comes to exactly 6.39625 with tax.
- A drink's size and base are `const` fields. No operation of the source reassigns them, so they cannot change after construction. It also means a price reads nothing from the heap, so changing a drink's flavors never changes an order's total.
- A drink's flavors are a `set<string>` of raw names, not of catalogue values. `add_flavor` and `set_flavors` store whatever they are given without checking it, so "all flavors are in the catalogue" holds right after construction but may fail later. `AddFlavor` and `SetFlavors` state exactly when it still holds.
- The source raises `ValueError` from the constructor. The model has a static method `Drink.Create` that returns `Result<Drink, DrinkError>`, with one error tag per check. The class's own constructor stores the fields. It requires that every flavor is in the catalogue, which `Create` establishes through `CheckDrink`, so no drink can be built with an unchecked flavor, as in the source.
- `add_item` accepts any Python value. Its argument is modelled as `Item = DrinkItem(Drink) | NotADrink`, so the silent drop of a non-drink is visible.
- The source writes each catalogue twice: once in `__init__` and once in the class-method predicates or `get_price`. The model defines each table once. Two lemmas (`IsValidBaseMatchesConstructor`, `IsValidFlavorMatchesConstructor`) state that the predicates agree with the constructor's tests.
- A stricter design would have `add_item` reject non-drinks, `add_flavor` and `set_flavors` reject unknown flavors, and `remove_item` fail on a bad index. The code does none of these: it drops non-drinks, stores any flavor and ignores a bad index. The model follows the code.
- The unit test at test_refresher.py:66 expects `get_size()` to return `'MEDIUM'` for a drink built with `'medium'`. Size names are case-sensitive and stored as given, so that expectation is a defect of the test and is not modelled.

## Model

| member | source | states |
|---|---|---|
| Catalogue.SizeName | refresher.py:23 | every size's name is a key of the size/price table, so the price lookup is total, and its price lies in [1.50, 2.15] |
| Catalogue.BaseName | refresher.py:24 | every base's name is one of the six valid base names |
| Catalogue.FlavorName | refresher.py:25 | every flavor's name is one of the six valid flavor names |
| Catalogue.ParseSize | refresher.py:27-28 | a name denotes a size exactly when it is a key of the size table (case-sensitive), and then it is that size's name |
| Catalogue.ParseBase | refresher.py:29-30 | a name denotes a base exactly when it is among the six base names, and then it is that base's name |
| Catalogue.ParseFlavor | refresher.py:25 | a name denotes a flavor exactly when it is among the six flavor names, and then it is that flavor's name |
| Catalogue.PriceBoundsReached | refresher.py:23 | small costs exactly 1.50 and Mega exactly 2.15, so [1.50, 2.15] is the tight price range |
| Catalogue.SizeRoundTrip | refresher.py:23 | parsing a size's name gives back that size |
| Catalogue.BaseRoundTrip | refresher.py:24 | parsing a base's name gives back that base |
| Catalogue.BaseNamesAreNames | refresher.py:41-42 | a string is a valid base name exactly when some base has that name |
| Catalogue.FlavorNamesAreNames | refresher.py:47-48 | a string is a valid flavor name exactly when some flavor has that name |
| Drinks.SetOfCardinality | refresher.py:36 | collecting a list into a set never grows it, and keeps its length exactly when the list has no repeats |
| Drinks.FlavorSet | refresher.py:36 | the flavor set holds exactly the listed names; it is empty for an absent or empty list; duplicates collapse, so its size is at most the list's length, with equality iff no repeats |
| Drinks.CheckDrink | refresher.py:27-32 | an invalid size fails with InvalidSize; otherwise an invalid base fails with InvalidBase; otherwise a present list with an unknown flavor fails with InvalidFlavors; success holds exactly when all three checks pass, and then carries the given size, base and flavor set |
| Drinks.Drink.constructor | refresher.py:34-36 | stores the given size, base and flavor set, which must all be catalogue flavors, so the new drink's flavors are valid |
| Drinks.Drink.Create | refresher.py:21-36 | fails with exactly CheckDrink's error, or yields a fresh drink whose size, base and flavor set are the given ones and whose flavors are all valid |
| Drinks.Drink.IsValidBase | refresher.py:38-42 | true exactly when the string names one of the six bases |
| Drinks.Drink.IsValidFlavor | refresher.py:44-48 | true exactly when the string names one of the six flavors |
| Drinks.IsValidBaseMatchesConstructor | refresher.py:29-30 | with a valid size, construction fails on the base exactly when is_valid_base is false |
| Drinks.IsValidFlavorMatchesConstructor | refresher.py:31-32 | with a valid size and base, construction from a flavor list succeeds exactly when is_valid_flavor holds of every listed flavor |
| Drinks.Drink.GetSize | refresher.py:50-52 | the returned name parses back to the drink's size |
| Drinks.Drink.GetBase | refresher.py:54-56 | the returned name parses back to the drink's base |
| Drinks.Drink.GetFlavors | refresher.py:58-60 | returns a list of the drink's flavors with every flavor exactly once, so its length is the number of flavors |
| Drinks.Drink.GetNumFlavors | refresher.py:62-64 | the number of distinct flavors, which is zero exactly when there are none |
| Drinks.Drink.AddFlavor | refresher.py:66-69 | the set becomes the old set plus the flavor; a flavor already present leaves it unchanged; a new one raises the count by one; nothing is checked, so previously valid flavors stay valid exactly when the added one is valid; size and base are constant |
| Drinks.Drink.SetFlavors | refresher.py:71-73 | the set becomes exactly the set of the given names, empty for an absent or empty list; the flavors are then valid exactly when every given name is |
| Drinks.Drink.GetPrice | refresher.py:75-78 | the lookup of the drink's size name in the price table is defined for every drink, and the price lies in [1.50, 2.15] |
| Drinks.ExampleAddFlavor | test_refresher.py:85-92 | a medium pokeacola with lemon, after adding cherry twice, has two flavors and costs 1.75 |
| Orders.Subtotal | refresher.py:130 | the sum of n drink prices lies between n × 1.50 and n × 2.15 |
| Orders.Tax | refresher.py:126 | the sum over drinks of price × 0.075 equals the subtotal × 0.075 |
| Orders.SubtotalConcat | refresher.py:130 | the subtotal of two lists joined is the sum of their subtotals |
| Orders.SubtotalRemove | refresher.py:111-114 | deleting the drink at an index lowers the subtotal by exactly that drink's price |
| Orders.Order.constructor | refresher.py:102-104 | a new order has no items and totals 0 |
| Orders.Order.AddItem | refresher.py:106-109 | a drink is appended after the unchanged earlier items, the count rises by one and the total by its price × 1.075; anything else leaves the order unchanged |
| Orders.Order.RemoveItem | refresher.py:111-114 | for 0 <= index < length, the items become those before the index followed by those after it, the count drops by one and the total by that drink's price × 1.075; any other index, including 0 on an empty order or a negative one, changes nothing |
| Orders.Order.GetItems | refresher.py:116-118 | returns the order's drinks in insertion order |
| Orders.Order.GetNumItems | refresher.py:120-122 | the count is the length of the list get_items returns |
| Orders.Order.GetTax | refresher.py:124-126 | the tax is 7.5% of the subtotal, between n × 1.50 × 0.075 and n × 2.15 × 0.075 for n drinks (0 for an empty order) |
| Orders.Order.GetTotalPrice | refresher.py:128-130 | subtotal plus tax equals subtotal × 1.075, and it is 0 exactly when the order is empty |
| Orders.ExampleOrderTotal | test_refresher.py:128-130 | an order of a medium, a large and a Mega drink totals exactly 6.39625 |

## Left out

- `get_receipt` (refresher.py:132-155) is not modelled. It is text formatting with two-decimal float output and line joining. Its `Food` branch names a class that the repository never defines.
- `__repr__` of both classes and the `__main__` demo (refresher.py:80-82, 157-166) are display and console output only.
- The `hasattr` fallbacks in the getters are not modelled. The attributes always exist once construction succeeds.
- Orders.Order.GetItems: returns the current sequence as a value. The source returns the internal list itself, so a caller could change the order through it; that aliasing is not modelled.
- Python floating point is not modelled: prices, tax and totals are exact decimals. The source's binary float results differ from these by rounding. The test compares them only to two places.
- `ValueError` messages are modelled only as the error tags `InvalidSize`, `InvalidBase` and `InvalidFlavors`, each with the offending argument. The message text is not modelled.
- Arguments of other Python types (a flavor list holding non-strings, an index that is not an integer) are not modelled. Sizes, bases and flavors are strings, and the index is an integer.
- The unit tests' own local `Order` class (test_refresher.py:7-36), which raises `TypeError` on a non-drink, is test scaffolding. The model follows `refresher.py`'s `Order`.
