/** The base character class (base_characters.py) and its five variants
    (simpson_characters.py) as one value type: the shared fields plus a
    `Role` that selects the variant and carries its own state. */
module Characters {
  import opened Common
  import Items
  import Vehicles

  /** Per-variant state: Homer's consumption history and optional car,
      Bart's optional skateboard. */
  datatype Role =
    | Plain
    | Homer(drunkBeers: seq<Items.DuffBeer>, car: Option<Vehicles.Car>)
    | Marge
    | Bart(skateboard: Option<Items.Skateboard>)
    | Lisa
    | Maggie

  /** `secret` is private by convention only; `GetSecret` is its accessor. */
  datatype Simpson = Simpson(name: string, age: int, secret: string, role: Role)

  /** The state a freshly constructed instance of the role's class starts
      with: Homer with no beers drunk and no car, Bart with no skateboard.
      Two roles belong to the same class exactly when their initial states
      agree. */
  function Initial(r: Role): (r0: Role)
    ensures r0.Plain? == r.Plain? && r0.Homer? == r.Homer? && r0.Marge? == r.Marge?
    ensures r0.Bart? == r.Bart? && r0.Lisa? == r.Lisa? && r0.Maggie? == r.Maggie?
    ensures r0.Homer? ==> r0.drunkBeers == [] && r0.car == None
    ensures r0.Bart? ==> r0.skateboard == None
  {
    match r
    case Homer(_, _) => Homer([], None)
    case Bart(_) => Bart(None)
    case _ => r
  }

  /** Both characters are instances of the same class. */
  predicate SameClass(a: Role, b: Role) {
    Initial(a) == Initial(b)
  }

  /** The constructor of each class (`cls` names the class): the base one
      stores name, age and secret verbatim; Homer starts with no beers drunk
      and no car, Bart with no skateboard. */
  function New(cls: Role, name: string, age: int, secret: string): (s: Simpson)
    ensures s.name == name && s.age == age && s.secret == secret
    ensures SameClass(s.role, cls)
    ensures s.role.Homer? ==> s.role.drunkBeers == [] && s.role.car == None
    ensures s.role.Bart? ==> s.role.skateboard == None
    ensures GetSecret(s) == secret && ToString(s) == name
  {
    Simpson(name, age, secret, Initial(cls))
  }

  /** `speak()`: the base class greets by name; each variant overrides it
      with its own fixed line, whatever its name or state. */
  function Speak(s: Simpson): (line: string)
    ensures |line| > 0
    ensures s.role.Plain? ==> line == "Hello from " + s.name + " (base Simpson)!"
    ensures s.role.Homer? ==> line == "D'oh!"
    ensures s.role.Marge? ==> line == "Hmmmm..."
    ensures s.role.Bart? ==> line == "Eat my shorts!"
    ensures s.role.Lisa? ==> line == "I'm going to become President someday!"
    ensures s.role.Maggie? ==> line == "*Pacifier sound*"
  {
    match s.role
    case Plain => "Hello from " + s.name + " (base Simpson)!"
    case Homer(_, _) => "D'oh!"
    case Marge => "Hmmmm..."
    case Bart(_) => "Eat my shorts!"
    case Lisa => "I'm going to become President someday!"
    case Maggie => "*Pacifier sound*"
  }

  /** `get_secret()`: the stored secret, read without any effect. */
  function GetSecret(s: Simpson): string {
    s.secret
  }

  /** `str(character)` is the character's name. */
  function ToString(s: Simpson): string {
    s.name
  }

  /** Characters of different classes never say the same thing, and two
      characters of the same overriding class always do. */
  lemma SpeakDistinguishesVariants(a: Simpson, b: Simpson)
    ensures !SameClass(a.role, b.role) ==> Speak(a) != Speak(b)
    ensures SameClass(a.role, b.role) && !a.role.Plain? ==> Speak(a) == Speak(b)
  {
    if !SameClass(a.role, b.role) {
      var la, lb := Speak(a), Speak(b);
      if a.role.Plain? {
        assert la[0] == 'H' && la[1] == 'e';
      }
      if b.role.Plain? {
        assert lb[0] == 'H' && lb[1] == 'e';
      }
    }
  }

  /** The steps of `go_to_work`: get dressed, drive the car or walk when
      there is none, enter the plant, clock in. */
  datatype WorkStep = GetDressed | Drive(car: Vehicles.Car) | Walk | EnterBuilding(building: string) | ClockIn

  /** `go_to_work(plant)` as its ordered sub-steps. */
  function WorkRoutine(h: Simpson, plant: Items.NuclearPlant): (steps: seq<WorkStep>)
    requires h.role.Homer?
    ensures |steps| == 4
    ensures steps[0] == GetDressed && steps[3] == ClockIn
    ensures steps[1].Walk? <==> h.role.car.None?
    ensures h.role.car.Some? ==> steps[1] == Drive(h.role.car.value)
    ensures steps[2] == EnterBuilding(plant.ToString())
  {
    var commute := match h.role.car
      case None => Walk
      case Some(c) => Drive(c);
    [GetDressed, commute, EnterBuilding(plant.ToString()), ClockIn]
  }

  /** The variant methods of simpson_characters.py that a character can be
      asked to perform. */
  datatype Action =
    | Drink(beer: Items.DuffBeer)
    | EatDonuts
    | GoToWork(plant: Items.NuclearPlant)
    | PayForItem(item: Option<Items.Item>, plant: Items.NuclearPlant)
    | SetSkateboard(board: Option<Items.Skateboard>)
    | Play(instrument: Items.Item)

  /** Which class defines each method: asking another class is an
      AttributeError in Python, so it is outside the model. */
  predicate Offers(r: Role, a: Action) {
    match a
    case Drink(_) => r.Homer?
    case EatDonuts => r.Homer?
    case GoToWork(_) => r.Homer?
    case PayForItem(_, _) => r.Homer?
    case SetSkateboard(_) => r.Bart?
    case Play(_) => r.Lisa?
  }

  /** `drink(beer)`: the beer joins the end of Homer's history; nothing else
      changes. */
  function DrinkBeer(h: Simpson, beer: Items.DuffBeer): (r: Simpson)
    requires h.role.Homer?
    ensures r.role.Homer? && r.role.drunkBeers == h.role.drunkBeers + [beer]
    ensures r.role.car == h.role.car
    ensures r.name == h.name && r.age == h.age && r.secret == h.secret
  {
    h.(role := h.role.(drunkBeers := h.role.drunkBeers + [beer]))
  }

  /** `set_skateboard(board)`: the skateboard is replaced, `None` included;
      nothing else changes. */
  function ChangeSkateboard(b: Simpson, board: Option<Items.Skateboard>): (r: Simpson)
    requires b.role.Bart?
    ensures r.role.Bart? && r.role.skateboard == board
    ensures r.name == b.name && r.age == b.age && r.secret == b.secret
  {
    b.(role := Bart(board))
  }

  /** The effect of a method on the character's state: `drink` and
      `set_skateboard` change what their contracts say; `eat_donuts`,
      `go_to_work`, `pay_for_item` and `play` only narrate. No method
      changes name, age, secret or class. */
  function Perform(s: Simpson, a: Action): (r: Simpson)
    requires Offers(s.role, a)
    ensures r.name == s.name && r.age == s.age && r.secret == s.secret
    ensures SameClass(r.role, s.role)
    ensures a.Drink? ==> r.role.drunkBeers == s.role.drunkBeers + [a.beer] && r.role.car == s.role.car
    ensures a.SetSkateboard? ==> r.role.skateboard == a.board
    ensures !a.Drink? && !a.SetSkateboard? ==> r == s
  {
    match a
    case Drink(beer) => DrinkBeer(s, beer)
    case SetSkateboard(board) => ChangeSkateboard(s, board)
    case _ => s
  }

  /** None of Homer's methods changes how he gets to work: the routine is
      the same before and after any of them. */
  lemma WorkRoutineUnaffected(h: Simpson, a: Action, plant: Items.NuclearPlant)
    requires h.role.Homer? && Offers(h.role, a)
    ensures Perform(h, a).role.Homer?
    ensures WorkRoutine(Perform(h, a), plant) == WorkRoutine(h, plant)
  {
  }

  /** A sequence of `drink` calls on Homer. */
  function DrinkAll(h: Simpson, beers: seq<Items.DuffBeer>): (r: Simpson)
    requires h.role.Homer?
    ensures r.role.Homer?
    decreases |beers|
  {
    if |beers| == 0 then h else DrinkAll(DrinkBeer(h, beers[0]), beers[1..])
  }

  /** Homer's history lists the beers in the order he drank them, repeats
      included, after whatever was there before. */
  lemma {:induction false} DrinkAllHistory(h: Simpson, beers: seq<Items.DuffBeer>)
    requires h.role.Homer?
    ensures DrinkAll(h, beers).role.drunkBeers == h.role.drunkBeers + beers
    decreases |beers|
  {
    if |beers| > 0 {
      var h' := DrinkBeer(h, beers[0]);
      DrinkAllHistory(h', beers[1..]);
      assert h.role.drunkBeers + [beers[0]] + beers[1..] == h.role.drunkBeers + beers;
    }
  }

  /** Only the last `set_skateboard` call matters. */
  lemma SkateboardLastWins(b: Simpson, first: Option<Items.Skateboard>, second: Option<Items.Skateboard>)
    requires b.role.Bart?
    ensures ChangeSkateboard(ChangeSkateboard(b, first), second) == ChangeSkateboard(b, second)
  {
  }
}
