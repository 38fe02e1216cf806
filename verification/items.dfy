/** The plain value objects of items.py. Each holds one descriptive text
    and displays it through a fixed template; the templates keep that text
    recoverable, so two items display alike only when they are alike. */
module Items {

  datatype DuffBeer = DuffBeer(brand: string)
  {
    /** `"Duff " + brand + " Beer"`. */
    function ToString(): (s: string)
      ensures |s| == |brand| + 10
      ensures s[..5] == "Duff " && s[|s| - 5..] == " Beer"
      ensures s[5..|s| - 5] == brand
    {
      "Duff " + brand + " Beer"
    }
  }

  datatype Skateboard = Skateboard(model: string)
  {
    /** `model + " Skateboard"`. */
    function ToString(): (s: string)
      ensures |s| == |model| + 11
      ensures s[..|model|] == model && s[|model|..] == " Skateboard"
    {
      model + " Skateboard"
    }
  }

  datatype NuclearPlant = NuclearPlant(name: string)
  {
    /** The plant displays as its bare name. */
    function ToString(): (s: string)
      ensures s == name
    {
      name
    }
  }

  datatype Saxophone = Saxophone(kind: string)
  {
    /** `kind + " Saxophone"`. */
    function ToString(): (s: string)
      ensures |s| == |kind| + 10
      ensures s[..|kind|] == kind && s[|kind|..] == " Saxophone"
    {
      kind + " Saxophone"
    }
  }

  /** Any of the four items, as passed to `pay_for_item` and `play`, which
      accept whatever object they are given. */
  datatype Item =
    | Beer(beer: DuffBeer)
    | Board(board: Skateboard)
    | Plant(plant: NuclearPlant)
    | Sax(sax: Saxophone)

  /** The display templates lose nothing: an item's display determines the
      item. */
  lemma ToStringInjective(b1: DuffBeer, b2: DuffBeer, k1: Skateboard, k2: Skateboard,
                          p1: NuclearPlant, p2: NuclearPlant, x1: Saxophone, x2: Saxophone)
    ensures b1.ToString() == b2.ToString() ==> b1 == b2
    ensures k1.ToString() == k2.ToString() ==> k1 == k2
    ensures p1.ToString() == p2.ToString() ==> p1 == p2
    ensures x1.ToString() == x2.ToString() ==> x1 == x2
  {
  }
}
