/**
 * Catalog products as the storefront receives them, and the category filter
 * that narrows the loaded product list when a category pill is chosen.
 */
module Catalog {

  /** A product of the remote catalog. Prices are exact reals; the rating is not modelled. */
  datatype Product = Product(
    id: int,
    title: string,
    price: real,
    description: string,
    category: string,
    image: string)

  /** The pill value that shows the whole list. */
  const AllCategories: string := "all"

  predicate IsUpper(c: char) {
    'A' <= c <= 'Z'
  }

  /** Lower-cases one character (ASCII letters only). */
  function LowerChar(c: char): char {
    if IsUpper(c) then (c as int + 32) as char else c
  }

  /** `String.prototype.toLowerCase`, restricted to ASCII letters. */
  function ToLower(s: string): (r: string)
    ensures |r| == |s|
    ensures forall i :: 0 <= i < |s| && IsUpper(s[i]) ==> r[i] as int == s[i] as int + 32
    ensures forall i :: 0 <= i < |s| && !IsUpper(s[i]) ==> r[i] == s[i]
    ensures forall i :: 0 <= i < |r| ==> !IsUpper(r[i])
  {
    if s == [] then [] else [LowerChar(s[0])] + ToLower(s[1..])
  }

  /** Lower-casing twice is lower-casing once. */
  lemma ToLowerIdempotent(s: string)
    ensures ToLower(ToLower(s)) == ToLower(s)
  {
  }

  /** The comparison the filter makes: categories equal up to case. */
  predicate CategoryMatches(p: Product, selected: string) {
    ToLower(p.category) == ToLower(selected)
  }

  /** The products whose category matches `selected`, in list order. */
  function MatchingCategory(products: seq<Product>, selected: string): (r: seq<Product>)
    ensures |r| <= |products|
    ensures forall p :: p in r <==> p in products && CategoryMatches(p, selected)
  {
    if products == [] then []
    else if CategoryMatches(products[0], selected) then [products[0]] + MatchingCategory(products[1..], selected)
    else MatchingCategory(products[1..], selected)
  }

  /** What a click on a category pill displays: the whole list for "all", else the matches. */
  function FilterByCategory(products: seq<Product>, selected: string): (r: seq<Product>)
    ensures selected == AllCategories ==> r == products
    ensures selected != AllCategories ==>
      forall p :: p in r <==> p in products && CategoryMatches(p, selected)
  {
    if selected == AllCategories then products else MatchingCategory(products, selected)
  }

  /** The filter keeps list order: filtering a concatenation concatenates the filtered parts. */
  lemma {:induction false} MatchingCategoryAppend(a: seq<Product>, b: seq<Product>, selected: string)
    ensures MatchingCategory(a + b, selected) == MatchingCategory(a, selected) + MatchingCategory(b, selected)
  {
    if a == [] {
      assert a + b == b;
    } else {
      assert (a + b)[1..] == a[1..] + b;
      MatchingCategoryAppend(a[1..], b, selected);
    }
  }

  /** Two pill values that differ only in case select the same products. */
  lemma {:induction false} FilterIgnoresCase(products: seq<Product>, s1: string, s2: string)
    requires s1 != AllCategories && s2 != AllCategories
    requires ToLower(s1) == ToLower(s2)
    ensures FilterByCategory(products, s1) == FilterByCategory(products, s2)
  {
    if products != [] {
      FilterIgnoresCase(products[1..], s1, s2);
    }
  }
}
