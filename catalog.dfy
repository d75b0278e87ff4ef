/**
 * The headphone catalog (data/headphones.ts), with the fields the cart and
 * the order use, and `headphones.find((item) => item.id === id)`.
 */
module Catalog {
  import opened Wrappers

  datatype Headphone = Headphone(id: int, name: string, brand: string, price: int)

  const Headphones: seq<Headphone> := [
    Headphone(1, "WH-1000XM5", "Sony", 348),
    Headphone(2, "QuietComfort Ultra", "Bose", 379),
    Headphone(3, "AirPods Max", "Apple", 479),
    Headphone(4, "Momentum 4 Wireless", "Sennheiser", 299),
    Headphone(5, "WH-CH720N", "Sony", 149),
    Headphone(6, "Px7 S2e", "Bowers & Wilkins", 399),
    Headphone(7, "H9i", "Bang & Olufsen", 449),
    Headphone(8, "Elite 85h", "Jabra", 199),
    Headphone(9, "Space One", "Soundcore", 99),
    Headphone(10, "Bathys", "Focal", 699)
  ]

  predicate DistinctIds(hs: seq<Headphone>) {
    forall i, j :: 0 <= i < j < |hs| ==> hs[i].id != hs[j].id
  }

  /** No two catalog entries share an id, and every price is positive. */
  lemma CatalogWellFormed()
    ensures DistinctIds(Headphones)
    ensures forall i :: 0 <= i < |Headphones| ==> Headphones[i].price > 0
  {
  }

  /** The first entry whose id equals the number `id`. */
  function FindIn(hs: seq<Headphone>, id: real): (r: Option<Headphone>)
    ensures r.Some? ==> r.value in hs && r.value.id as real == id
    ensures r.None? <==> forall i :: 0 <= i < |hs| ==> hs[i].id as real != id
  {
    if hs == [] then None
    else if hs[0].id as real == id then Some(hs[0])
    else FindIn(hs[1..], id)
  }

  function Find(id: real): (r: Option<Headphone>)
    ensures r.Some? ==> r.value in Headphones && r.value.id as real == id
    ensures r.None? <==> forall i :: 0 <= i < |Headphones| ==> Headphones[i].id as real != id
  {
    FindIn(Headphones, id)
  }

  /** Every catalog entry is what a lookup of its own id finds. */
  lemma {:induction false} FindInMember(hs: seq<Headphone>, h: Headphone)
    requires DistinctIds(hs) && h in hs
    ensures FindIn(hs, h.id as real) == Some(h)
  {
    if hs[0] != h {
      assert hs[0].id != h.id by {
        var k :| 0 <= k < |hs| && hs[k] == h;
        assert k > 0;
      }
      assert h in hs[1..];
      FindInMember(hs[1..], h);
    }
  }

  /** A catalog entry, told by the lookup of its own id. */
  predicate Listed(h: Headphone) {
    Find(h.id as real) == Some(h)
  }

  /** Being listed is being in the catalog. */
  lemma ListedIff(h: Headphone)
    ensures Listed(h) <==> h in Headphones
  {
    if h in Headphones {
      CatalogWellFormed();
      FindInMember(Headphones, h);
    }
  }

  /** Every listed entry has a positive price. */
  lemma ListedPositive(h: Headphone)
    requires Listed(h)
    ensures h.price > 0
  {
    CatalogWellFormed();
    var k :| 0 <= k < |Headphones| && Headphones[k] == h;
  }
}
