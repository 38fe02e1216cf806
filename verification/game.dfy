/** The state logic of the narrative driver (game.py), lifted out of the
    console script as pure steps over a `World`: setting up the cast and
    their relationships, the daytime actions, the evening choice and the
    boarding of the car. Console input arrives as parameters: the evening
    choice as the entered text, the boarding choice as the result of
    Python's `int()` on the entered text (`None` when `int()` raises). */
module Game {
  import opened Common
  import Sequences
  import Text
  import Items
  import Vehicles
  import Characters
  import Families

  /** The object identities of the five characters the driver creates. */
  const HomerRef: Ref := 0
  const MargeRef: Ref := 1
  const BartRef: Ref := 2
  const LisaRef: Ref := 3
  const MaggieRef: Ref := 4

  /** Every object the driver creates. Homer's `car` field holds the car as
      it was when assigned; Python shares one car object, but the only use
      of Homer's car is its display, which later driver and occupant
      changes do not affect (`Vehicles.ToStringIgnoresOccupancy`). */
  datatype World = World(
    homer: Characters.Simpson, marge: Characters.Simpson, bart: Characters.Simpson,
    lisa: Characters.Simpson, maggie: Characters.Simpson,
    plant: Items.NuclearPlant, duff: Items.DuffBeer, skate: Items.Skateboard,
    sax: Items.Saxophone, car: Vehicles.Car, family: Families.Family)

  /** Each of the five characters is an instance of its own class. */
  predicate CastInPlace(w: World) {
    w.homer.role.Homer? && w.marge.role.Marge? && w.bart.role.Bart?
    && w.lisa.role.Lisa? && w.maggie.role.Maggie?
  }

  /** The name of the character a reference stands for, as `o.name` reads
      it when the occupants are listed. */
  function NameOf(w: World): Ref -> string {
    r => if r == HomerRef then w.homer.name
         else if r == MargeRef then w.marge.name
         else if r == BartRef then w.bart.name
         else if r == LisaRef then w.lisa.name
         else if r == MaggieRef then w.maggie.name
         else ""
  }

  /** Object creation and the relationships: five family members in order,
      Bart's skateboard, Homer's car and Homer as its driver. The car gets
      a driver but no occupants. */
  method Setup() returns (w: World)
    ensures CastInPlace(w)
    ensures w.homer.name == "Homer" && w.marge.name == "Marge" && w.bart.name == "Bart"
    ensures w.lisa.name == "Lisa" && w.maggie.name == "Maggie"
    ensures w.family.lastName == "Simpson"
    ensures w.family.members == [HomerRef, MargeRef, BartRef, LisaRef, MaggieRef]
    ensures w.bart.role.skateboard == Some(w.skate)
    ensures w.homer.age == 39 && w.marge.age == 36 && w.bart.age == 10
    ensures w.lisa.age == 8 && w.maggie.age == 1
    ensures w.homer.secret == "I love donuts more than Marge"
    ensures w.marge.secret == "I once almost had an affair"
    ensures w.bart.secret == "I'm actually a good student but hide it"
    ensures w.lisa.secret == "I sometimes wish I wasn't so smart"
    ensures w.maggie.secret == "I shot Mr. Burns"
    ensures w.plant == Items.NuclearPlant("Springfield Nuclear Power Plant")
    ensures w.duff == Items.DuffBeer("Regular") && w.skate == Items.Skateboard("Thrashmaster 3000")
    ensures w.sax == Items.Saxophone("Baritone")
    ensures w.homer.role.drunkBeers == []
    ensures w.homer.role.car == Some(Vehicles.NewCar("Sedan", "Pink"))
    ensures w.car == Vehicles.SetDriver(w.homer.role.car.value, Some(HomerRef))
    ensures w.car.occupants == [] && w.car.driver == Some(HomerRef)
    ensures w.car.model == "Sedan" && w.car.color == "Pink"
    ensures w.car.Valid() && w.car.PartsAsBuilt()
  {
    var homer := Characters.New(Characters.Homer([], None), "Homer", 39, "I love donuts more than Marge");
    var marge := Characters.New(Characters.Marge, "Marge", 36, "I once almost had an affair");
    var bart := Characters.New(Characters.Bart(None), "Bart", 10, "I'm actually a good student but hide it");
    var lisa := Characters.New(Characters.Lisa, "Lisa", 8, "I sometimes wish I wasn't so smart");
    var maggie := Characters.New(Characters.Maggie, "Maggie", 1, "I shot Mr. Burns");
    var plant := Items.NuclearPlant("Springfield Nuclear Power Plant");
    var duff := Items.DuffBeer("Regular");
    var skate := Items.Skateboard("Thrashmaster 3000");
    var sax := Items.Saxophone("Baritone");
    var car := Vehicles.NewCar("Sedan", "Pink");
    var family := Families.NewFamily("Simpson");
    var members := [HomerRef, MargeRef, BartRef, LisaRef, MaggieRef];
    Families.NewFamilyThenAdd("Simpson", members);
    var family' := Families.AddMembers(family, members);
    var bart' := Characters.Perform(bart, Characters.SetSkateboard(Some(skate)));
    var homer' := homer.(role := homer.role.(car := Some(car)));
    var car' := Vehicles.SetDriver(car, Some(HomerRef));
    w := World(homer', marge, bart', lisa, maggie, plant, duff, skate, sax, car', family');
  }

  /** The daytime actions: Homer goes to work, Lisa plays the saxophone,
      Homer pays for Bart's skateboard and the saxophone. They narrate and
      change nothing. */
  function Daytime(w: World): (r: World)
    requires CastInPlace(w)
    ensures r == w
  {
    var homer := Characters.Perform(w.homer, Characters.GoToWork(w.plant));
    var lisa := Characters.Perform(w.lisa, Characters.Play(Items.Sax(w.sax)));
    var boardItem := match w.bart.role.skateboard
      case None => None
      case Some(k) => Some(Items.Board(k));
    var homer' := Characters.Perform(homer, Characters.PayForItem(boardItem, w.plant));
    var homer'' := Characters.Perform(homer', Characters.PayForItem(Some(Items.Sax(w.sax)), w.plant));
    w.(homer := homer'', lisa := lisa)
  }

  datatype EveningBranch = DrankBeer | AteDonuts | SatOnCouch

  /** The evening choice: `"1"` makes Homer drink the Duff, `"2"` makes him
      eat donuts, anything else leaves him on the couch. Only the first
      changes any state. */
  function Evening(w: World, choice: string): (r: (World, EveningBranch))
    requires CastInPlace(w)
    ensures CastInPlace(r.0)
    ensures r.1 == DrankBeer <==> choice == "1"
    ensures r.1 == AteDonuts <==> choice == "2"
    ensures r.1 == DrankBeer ==>
      r.0 == w.(homer := r.0.homer)
      && r.0.homer.role.drunkBeers == w.homer.role.drunkBeers + [w.duff]
      && r.0.homer.role.car == w.homer.role.car
      && r.0.homer.name == w.homer.name
      && r.0.homer.age == w.homer.age && r.0.homer.secret == w.homer.secret
    ensures r.1 != DrankBeer ==> r.0 == w
  {
    if choice == "1" then
      (w.(homer := Characters.Perform(w.homer, Characters.Drink(w.duff))), DrankBeer)
    else if choice == "2" then
      (w.(homer := Characters.Perform(w.homer, Characters.EatDonuts)), AteDonuts)
    else
      (w, SatOnCouch)
  }

  /** The family members still to board, in the order the menu lists them. */
  const Remaining: seq<Ref> := [MargeRef, BartRef, LisaRef, MaggieRef]

  /** The order in which the whole family piles in when the choice is
      rejected. */
  const FallbackOrder: seq<Ref> := [HomerRef, MargeRef, BartRef, LisaRef, MaggieRef]

  /** The parsed choice names a menu entry: `int(text) - 1` is an index of
      `Remaining`. Zero and negative numbers are rejected like large ones. */
  predicate ValidPick(choice: Option<int>) {
    choice.Some? && 0 <= choice.value - 1 < |Remaining|
  }

  /** The intended seating: Homer, then the chosen member, then the others
      in their menu order; without a valid pick, the fixed fallback order. */
  function BoardingOrder(choice: Option<int>): (order: seq<Ref>)
    ensures |order| == Vehicles.Capacity && order[0] == HomerRef
    ensures ValidPick(choice) ==> order[1] == Remaining[choice.value - 1]
    ensures ValidPick(choice) ==> order[2..] == Sequences.RemoveAt(Remaining, choice.value - 1)
    ensures !ValidPick(choice) ==> order == FallbackOrder
  {
    if ValidPick(choice) then
      var i := choice.value - 1;
      [HomerRef, Remaining[i]] + Sequences.RemoveAt(Remaining, i)
    else
      FallbackOrder
  }

  /** Whatever the choice, everybody boards exactly once: the seating is a
      rearrangement of the five family members. */
  lemma BoardingOrderIsPermutation(choice: Option<int>)
    ensures multiset(BoardingOrder(choice)) == multiset(FallbackOrder)
  {
    if ValidPick(choice) {
      assert FallbackOrder == [HomerRef] + Remaining;
      Sequences.MoveToSecondPermutation(HomerRef, Remaining, choice.value - 1);
    }
  }

  /** game.py:134-144, after the pick: the driver, the chosen member, then each
      of `rest` while the car has room, stopping with "Car is full!" (which
      sets `carFull`) once it has none. Everyone boards in that order up to
      five seats, and "Car is full!" is printed exactly when some of `rest`
      is left standing; with room for all of them the full branch is never
      taken. */
  method BoardChosenFirst(car: Vehicles.Car, driver: Ref, chosen: Ref, rest: seq<Ref>)
    returns (r: Vehicles.Car, carFull: bool)
    ensures Vehicles.SameExceptOccupants(car, r)
    ensures car.Valid() ==> r.Valid()
    ensures |car.occupants| + 2 + |rest| <= Vehicles.Capacity ==>
      r.occupants == car.occupants + [driver, chosen] + rest && !carFull
    ensures car.Valid() ==>
      r.occupants == (car.occupants + [driver, chosen] + rest)
        [..Vehicles.Min(|car.occupants| + 2 + |rest|, Vehicles.Capacity)]
    ensures car.Valid() ==>
      (carFull <==> |rest| > 0 && |car.occupants| + 2 + |rest| > Vehicles.Capacity)
  {
    carFull := false;
    r := Vehicles.AddOccupant(car, driver);
    r := Vehicles.AddOccupant(r, chosen);
    var roomForAll := |car.occupants| + 2 + |rest| <= Vehicles.Capacity;
    ghost var all := car.occupants + [driver, chosen] + rest;
    var k := 0;
    while k < |rest|
      invariant 0 <= k <= |rest|
      invariant !carFull
      invariant car.Valid() ==> r.occupants == all[..Vehicles.Min(|car.occupants| + 2 + k, Vehicles.Capacity)]
      invariant car.Valid() && k > 0 ==> |car.occupants| + 2 + k - 1 < Vehicles.Capacity
      invariant Vehicles.SameExceptOccupants(car, r)
      invariant car.Valid() ==> r.Valid()
      invariant roomForAll ==> r.occupants == car.occupants + [driver, chosen] + rest[..k] && !carFull
    {
      if |r.occupants| < Vehicles.Capacity {
        r := Vehicles.AddOccupant(r, rest[k]);
      } else {
        carFull := true;
        break;
      }
      assert rest[..k + 1] == rest[..k] + [rest[k]];
      k := k + 1;
    }
    assert rest[..|rest|] == rest;
  }

  /** A valid pick (game.py:133-144): the menu entry is popped from the
      remaining members and boards right after Homer, the others follow in
      menu order while there is room. From any car within the bound the
      seating is `BoardingOrder` after the earlier occupants, cut at five,
      and "Car is full!" is printed exactly when the car was not empty. */
  method BoardPick(car: Vehicles.Car, choice: Option<int>) returns (r: Vehicles.Car, carFull: bool)
    requires ValidPick(choice)
    ensures Vehicles.SameExceptOccupants(car, r)
    ensures car.Valid() ==> r.Valid()
    ensures car.occupants == [] ==> r.occupants == BoardingOrder(choice) && !carFull
    ensures car.Valid() ==>
      r.occupants == (car.occupants + BoardingOrder(choice))[..Vehicles.Capacity]
    ensures car.Valid() ==> (carFull <==> |car.occupants| > 0)
  {
    var index := choice.value - 1;
    var rest := Sequences.RemoveAt(Remaining, index);
    assert |rest| == 3;
    assert BoardingOrder(choice) == [HomerRef, Remaining[index]] + rest;
    r, carFull := BoardChosenFirst(car, HomerRef, Remaining[index], rest);
    assert car.occupants + [HomerRef, Remaining[index]] + rest
        == car.occupants + BoardingOrder(choice);
    if car.occupants == [] {
      assert car.occupants + [HomerRef, Remaining[index]] == [HomerRef, Remaining[index]];
    }
  }

  /** The boarding code as written (game.py:131-160): a valid pick boards
      through `BoardPick`; a rejected number and text `int()` cannot parse
      both make five plain `add_occupant` calls. From any car within the
      bound the seating is `BoardingOrder` after the earlier occupants, cut
      at five, and "Car is full!" is printed only for a valid pick into a
      car that was not empty; starting from an empty car, which is the
      state `Setup` leaves, the seating is exactly `BoardingOrder` and
      "Car is full!" is never printed. */
  method Board(car: Vehicles.Car, choice: Option<int>) returns (r: Vehicles.Car, carFull: bool)
    ensures Vehicles.SameExceptOccupants(car, r)
    ensures car.Valid() ==> r.Valid()
    ensures car.occupants == [] ==> r.occupants == BoardingOrder(choice) && !carFull
    ensures !ValidPick(choice) ==> !carFull
    ensures car.Valid() ==>
      r.occupants == (car.occupants + BoardingOrder(choice))[..Vehicles.Capacity]
    ensures car.Valid() ==> (carFull <==> ValidPick(choice) && |car.occupants| > 0)
  {
    if ValidPick(choice) {
      r, carFull := BoardPick(car, choice);
    } else {
      carFull := false;
      r := Vehicles.AddOccupants(car, FallbackOrder);
      if car.Valid() {
        Vehicles.AddOccupantsKeepsFirstFive(car, FallbackOrder);
        if car.occupants == [] {
          assert car.occupants + FallbackOrder == FallbackOrder;
        }
      }
    }
  }

  /** The whole scripted day. */
  method RunGame(eveningChoice: string, boardingChoice: Option<int>)
    returns (w: World, branch: EveningBranch, carFull: bool)
    ensures CastInPlace(w) && !carFull
    ensures w.car.occupants == BoardingOrder(boardingChoice)
    ensures |w.car.occupants| == Vehicles.Capacity && w.car.occupants[0] == HomerRef
    ensures w.car.driver == Some(HomerRef) && w.car.PartsAsBuilt()
    ensures branch == DrankBeer <==> eveningChoice == "1"
    ensures w.homer.role.drunkBeers == (if eveningChoice == "1" then [w.duff] else [])
    ensures w.family.members == [HomerRef, MargeRef, BartRef, LisaRef, MaggieRef]
    ensures w.car.color == "Pink" && w.car.model == "Sedan"
    ensures Vehicles.ToString(w.car) == "Pink" + " " + "Sedan" + " with " + "V8 Engine" + " and 4 " + "16-inch Wheels"
    ensures w.homer.role.car.Some? && w.homer.role.car.value.PartsAsBuilt()
    ensures Vehicles.ToString(w.homer.role.car.value) == Vehicles.ToString(w.car)
    ensures Characters.WorkRoutine(w.homer, w.plant)[1] == Characters.Drive(w.homer.role.car.value)
    ensures var names := Families.Names(w.car.occupants, NameOf(w));
      names[0] == "Homer"
      && (ValidPick(boardingChoice) ==>
            names[1] == Families.Names(Remaining, NameOf(w))[boardingChoice.value - 1])
  {
    w := Setup();
    w := Daytime(w);
    var evening := Evening(w, eveningChoice);
    w, branch := evening.0, evening.1;
    var car;
    car, carFull := Board(w.car, boardingChoice);
    w := w.(car := car);
  }

  /** The morning lines (game.py:68-72): each character of the cast says the
      fixed line of its class. */
  lemma MorningLines(w: World)
    requires CastInPlace(w)
    ensures Characters.Speak(w.homer) == "D'oh!"
    ensures Characters.Speak(w.marge) == "Hmmmm..."
    ensures Characters.Speak(w.bart) == "Eat my shorts!"
    ensures Characters.Speak(w.lisa) == "I'm going to become President someday!"
    ensures Characters.Speak(w.maggie) == "*Pacifier sound*"
  {
  }

  /** Entering "2" seats Bart right after Homer; Marge, Lisa and Maggie
      follow in menu order. */
  lemma PickBartScenario()
    ensures BoardingOrder(Some(2)) == [HomerRef, BartRef, MargeRef, LisaRef, MaggieRef]
  {
    var rest := Sequences.RemoveAt(Remaining, 1);
    assert rest[0] == MargeRef && rest[1] == LisaRef && rest[2] == MaggieRef;
  }

  /** "9", "0", "-1" and text `int()` rejects all give the fallback order. */
  lemma RejectedChoiceScenarios()
    ensures BoardingOrder(Some(9)) == FallbackOrder
    ensures BoardingOrder(Some(0)) == FallbackOrder
    ensures BoardingOrder(Some(-1)) == FallbackOrder
    ensures BoardingOrder(None) == FallbackOrder
  {
  }

  /** Typing the number the menu prints next to a member (`i + 1`) seats
      that member right after Homer: `int(str(i + 1)) - 1 == i`. */
  lemma MenuNumberSelectsMember(i: nat)
    requires i < |Remaining|
    ensures Text.IsIntText(Text.IntToString(i + 1))
    ensures BoardingOrder(Some(Text.ParseInt(Text.IntToString(i + 1))))[1] == Remaining[i]
  {
    Text.ParseIntToString(i + 1);
  }
}
