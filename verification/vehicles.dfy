/** Homer's car (vehicles.py): a whole that builds its own engine and four
    wheels once, holds at most five occupant references and an optional
    driver reference. */
module Vehicles {
  import opened Common
  import Sequences
  import Text

  /** Seats in the car: `add_occupant` refuses a sixth occupant. */
  const Capacity: nat := 5

  datatype Engine = Engine(kind: string)
  {
    /** `kind + " Engine"`. */
    function ToString(): (s: string)
      ensures |s| == |kind| + 7
      ensures s[..|kind|] == kind && s[|kind|..] == " Engine"
    {
      kind + " Engine"
    }
  }

  datatype Wheel = Wheel(size: int)
  {
    /** The wheel's size in canonical decimal, then `"-inch Wheels"`. */
    function ToString(): (s: string)
      ensures |s| > 12 && s[|s| - 12..] == "-inch Wheels"
      ensures s[..|s| - 12] == Text.IntToString(size)
      ensures Text.IsIntText(s[..|s| - 12]) && Text.ParseInt(s[..|s| - 12]) == size
    {
      var digits := Text.IntToString(size);
      Text.ParseIntToString(size);
      assert (digits + "-inch Wheels")[..|digits|] == digits;
      digits + "-inch Wheels"
    }
  }

  datatype Car = Car(model: string, color: string, engine: Engine, wheels: seq<Wheel>,
                     occupants: seq<Ref>, driver: Option<Ref>)
  {
    /** The multiplicity 0..5 of the occupant aggregation. */
    predicate Valid() {
      |occupants| <= Capacity
    }

    /** The parts exactly as the constructor builds them. */
    predicate PartsAsBuilt() {
      && engine == Engine("V8")
      && |wheels| == 4
      && forall i :: 0 <= i < |wheels| ==> wheels[i] == Wheel(16)
    }
  }

  /** Everything but the occupant list is the same in both cars. */
  predicate SameExceptOccupants(c: Car, d: Car) {
    c.model == d.model && c.color == d.color && c.engine == d.engine
    && c.wheels == d.wheels && c.driver == d.driver
  }

  /** `HomersCar(model, color)`: one V8 engine, four 16-inch wheels, no
      occupants, no driver. */
  function NewCar(model: string, color: string): (c: Car)
    ensures c.model == model && c.color == color
    ensures c.engine.kind == "V8"
    ensures |c.wheels| == 4 && forall w <- c.wheels :: w.size == 16
    ensures c.occupants == [] && c.driver == None
    ensures c.Valid() && c.PartsAsBuilt()
  {
    Car(model, color, Engine("V8"), seq(4, _ => Wheel(16)), [], None)
  }

  /** `set_driver(driver)`: the driver is replaced (`None` included) and
      nothing else changes. */
  function SetDriver(c: Car, driver: Option<Ref>): (r: Car)
    ensures r.driver == driver
    ensures r.model == c.model && r.color == c.color && r.engine == c.engine
    ensures r.wheels == c.wheels && r.occupants == c.occupants
  {
    c.(driver := driver)
  }

  /** `add_occupant(o)`: appended at the end while fewer than five are on
      board, otherwise the car is full and nothing changes. */
  function AddOccupant(c: Car, o: Ref): (r: Car)
    ensures |c.occupants| < Capacity ==> r.occupants == c.occupants + [o]
    ensures |c.occupants| >= Capacity ==> r == c
    ensures SameExceptOccupants(c, r)
    ensures c.Valid() ==> r.Valid()
  {
    if |c.occupants| < Capacity then c.(occupants := c.occupants + [o]) else c
  }

  /** `remove_occupant(o)`: the first occurrence of `o` leaves, every other
      occupant keeps its place; an absent `o` changes nothing. */
  function RemoveOccupant(c: Car, o: Ref): (r: Car)
    ensures o !in c.occupants ==> r == c
    ensures o in c.occupants ==>
      var i := Sequences.FirstIndex(c.occupants, o);
      r.occupants == c.occupants[..i] + c.occupants[i + 1..]
    ensures o in c.occupants ==> |r.occupants| == |c.occupants| - 1
    ensures SameExceptOccupants(c, r)
    ensures c.Valid() ==> r.Valid()
  {
    if o in c.occupants then
      Sequences.RemoveFirstSplits(c.occupants, o);
      c.(occupants := Sequences.RemoveFirst(c.occupants, o))
    else c
  }

  /** The composed parts as `str(car)` shows them: the engine, the number
      of wheels and the first wheel. Python indexes `wheels[0]`, so an
      empty wheel list would raise; every car the constructor builds has
      four. */
  function PartsToString(c: Car): (s: string)
    requires |c.wheels| > 0
    ensures c.engine.ToString() + " and " <= s
    ensures |s| >= |c.wheels[0].ToString()| && s[|s| - |c.wheels[0].ToString()|..] == c.wheels[0].ToString()
    ensures |s| == |c.engine.ToString()| + 5 + |Text.IntToString(|c.wheels|)| + 1 + |c.wheels[0].ToString()|
    ensures s[|c.engine.ToString()| + 5..|s| - |c.wheels[0].ToString()|] == Text.IntToString(|c.wheels|) + " "
  {
    c.engine.ToString() + " and " + Text.IntToString(|c.wheels|) + " " + c.wheels[0].ToString()
  }

  /** `str(car)`: color, model and the composed parts. The case split on
      the constructor's parts is there for the proof only: both branches
      give the same text. */
  function ToString(c: Car): (s: string)
    requires |c.wheels| > 0
    ensures c.color + " " + c.model + " with " + c.engine.ToString() + " and " <= s
    ensures |s| >= |c.wheels[0].ToString()| && s[|s| - |c.wheels[0].ToString()|..] == c.wheels[0].ToString()
    ensures c.PartsAsBuilt() ==>
      s == c.color + " " + c.model + " with " + "V8 Engine" + " and 4 " + "16-inch Wheels"
  {
    var parts := PartsToString(c);
    if c.PartsAsBuilt() then
      BuiltPartsToString(c);
      c.color + " " + c.model + " with " + parts
    else
      c.color + " " + c.model + " with " + parts
  }

  /** The parts the constructor builds display as one V8 engine and four
      16-inch wheels. */
  lemma BuiltPartsToString(c: Car)
    requires c.PartsAsBuilt()
    ensures PartsToString(c) == "V8 Engine" + " and 4 " + "16-inch Wheels"
  {
    assert c.wheels[0] == Wheel(16);
    assert Text.IntToString(4) == "4";
    SixteenInchWheel();
    assert Engine("V8").ToString() == "V8 Engine";
    assert " and " + "4" + " " == " and 4 ";
  }

  lemma SixteenInchWheel()
    ensures Wheel(16).ToString() == "16-inch Wheels"
  {
    assert Text.IntToString(16) == Text.NatToString(1) + [Text.DigitChar(6)] == "16";
  }

  /** Driver and occupant changes never alter the display: the parts it
      shows are built once and no operation touches them. */
  lemma ToStringIgnoresOccupancy(c: Car, o: Ref, d: Option<Ref>)
    requires |c.wheels| > 0
    ensures ToString(SetDriver(c, d)) == ToString(c)
    ensures ToString(AddOccupant(c, o)) == ToString(c)
    ensures ToString(RemoveOccupant(c, o)) == ToString(c)
  {
  }

  /** Every operation keeps the parts the constructor built. */
  lemma OperationsKeepParts(c: Car, o: Ref, d: Option<Ref>)
    requires c.PartsAsBuilt()
    ensures SetDriver(c, d).PartsAsBuilt()
    ensures AddOccupant(c, o).PartsAsBuilt()
    ensures RemoveOccupant(c, o).PartsAsBuilt()
  {
  }

  /** A run of `add_occupant` calls, one per element of `os`. */
  function AddOccupants(c: Car, os: seq<Ref>): (r: Car)
    ensures SameExceptOccupants(c, r)
    decreases |os|
  {
    if |os| == 0 then c else AddOccupants(AddOccupant(c, os[0]), os[1..])
  }

  function Min(a: nat, b: nat): nat {
    if a <= b then a else b
  }

  /** However many characters try to get in, the car keeps the first ones
      in arrival order up to five seats and refuses the rest. */
  lemma {:induction false} AddOccupantsKeepsFirstFive(c: Car, os: seq<Ref>)
    requires c.Valid()
    ensures AddOccupants(c, os).occupants
         == (c.occupants + os)[..Min(|c.occupants| + |os|, Capacity)]
    decreases |os|
  {
    if |os| > 0 {
      var c' := AddOccupant(c, os[0]);
      AddOccupantsKeepsFirstFive(c', os[1..]);
      if |c.occupants| < Capacity {
        assert c'.occupants + os[1..] == c.occupants + os;
      } else {
        assert (c.occupants + os)[..Capacity] == c.occupants;
        assert (c.occupants + os[1..])[..Capacity] == c.occupants;
      }
    } else {
      assert c.occupants + os == c.occupants;
    }
  }

  /** Adding a character who was not on board and removing them again
      restores the car. */
  lemma AddThenRemove(c: Car, o: Ref)
    requires |c.occupants| < Capacity && o !in c.occupants
    ensures RemoveOccupant(AddOccupant(c, o), o) == c
  {
  }

  /** Removal takes out exactly one copy of the character, whichever seat
      it occupied. */
  lemma RemoveOccupantCount(c: Car, o: Ref)
    ensures o in c.occupants ==>
      multiset(RemoveOccupant(c, o).occupants)[o] == multiset(c.occupants)[o] - 1
    ensures forall p :: p != o ==>
      multiset(RemoveOccupant(c, o).occupants)[p] == multiset(c.occupants)[p]
  {
    Sequences.RemoveFirstMultiset(c.occupants, o);
  }
}
