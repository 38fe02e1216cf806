# Simpsons RPG — a verified model of its object model and driver state

The repository is a small text adventure. It illustrates object relationships
through the Simpson family. A scripted driver (`run_game`) creates five
characters, four items, Homer's car and the family. It wires up their
relationships and narrates a day in Springfield. It has two points where the
player chooses. This project models the state logic behind that narration:

- **Characters** (`Characters`): the base `Simpson` class and its five
  variants form one value type. Each character has name, age and secret plus
  a `Role`, and the role carries the per-variant state: Homer's beers drunk
  and optional car, Bart's optional skateboard. The module covers `speak`,
  `get_secret`, `str`, `drink`, `set_skateboard`, and the narration-only
  methods (`eat_donuts`, `go_to_work`, `pay_for_item`, `play`). The
  four-step `go_to_work` routine is modelled as a sequence of steps.
- **Items** (`Items`): `DuffBeer`, `Skateboard`, `NuclearPlant` and
  `Saxophone`, with their display templates.
- **Homer's car** (`Vehicles`): the car builds one V8 engine and four 16-inch
  wheels once. It holds at most five occupant references and an optional
  driver. The module models `add_occupant` (append while below five),
  `remove_occupant` (first occurrence only) and `set_driver`, plus the
  display string.
- **The family** (`Families`): a surname and an append-only member list that
  allows duplicates, with its `", "`-joined display.
- **The driver** (`Game`): setup and relationships, the daytime actions, the
  evening choice (`"1"`, `"2"` or anything else) and the boarding of the car.
  The boarding takes Python's `int()` result as `Option<int>`. The whole
  scripted day is `Game.RunGame`.
- Helpers: `Common` (`Option`; `Ref`, a character's object identity),
  `Sequences` (`list.remove` and `list.pop`) and `Text` (`str()` of an int
  and `str.join`).

Occupants, the driver and family members are references (`Ref`). In Python
these are shared objects, and `in` and `list.remove` compare them by
identity. Homer's `car` field holds the car value as it was when assigned
(game.py:62). Python shares one car object instead. The only use of Homer's
car is its display in `go_to_work`. `Vehicles.ToStringIgnoresOccupancy`
proves that later driver and occupant changes do not affect that display.

## Model

| member | source | states |
|---|---|---|
| Vehicles.NewCar | vehicles.py:13-33 | a new car stores model and color, has one `"V8"` engine and exactly four wheels of size 16, no occupants and no driver; it satisfies the 0..5 bound and its parts are as built |
| Vehicles.SetDriver | vehicles.py:36-43 | the driver becomes the given reference or `None`; occupants, engine, wheels, model and color are unchanged |
| Vehicles.AddOccupant | vehicles.py:46-53 | below five occupants the new one is appended at the end; at five the car is returned unchanged; no other field changes; the 0..5 bound is preserved |
| Vehicles.RemoveOccupant | vehicles.py:56-63 | a present character loses exactly its first occurrence, with the prefix and suffix around it kept in order; an absent one leaves the car unchanged; no other field changes; the bound is preserved |
| Vehicles.AddOccupantsKeepsFirstFive | vehicles.py:49-53 | after any run of `add_occupant` calls the car holds its earlier occupants followed by the arrivals, cut at five seats; later arrivals are refused |
| Vehicles.AddThenRemove | vehicles.py:46-63 | adding a character who was not on board, then removing them, gives back the original car |
| Vehicles.RemoveOccupantCount | vehicles.py:59-60 | removal lowers the present character's count by exactly one and leaves every other character's count unchanged |
| Vehicles.OperationsKeepParts | vehicles.py:19-25 | `set_driver`, `add_occupant` and `remove_occupant` keep the engine and the four wheels exactly as the constructor built them |
| Vehicles.ToStringIgnoresOccupancy | vehicles.py:65-69 | the car's display is the same before and after any `set_driver`, `add_occupant` or `remove_occupant` |
| Vehicles.ToString | vehicles.py:65-69 | `str(car)` starts with color, space, model, `" with "`, the engine's display and `" and "`, and ends with the first wheel's display; a car with the constructor's parts displays exactly as `"<color> <model> with V8 Engine and 4 16-inch Wheels"` |
| Vehicles.PartsToString | vehicles.py:68-69 | the composed-parts text is the engine's display, `" and "`, the canonical `str()` of the number of wheels, a space, then the first wheel's display |
| Vehicles.BuiltPartsToString | vehicles.py:85-105 | the constructor's parts display as `"V8 Engine"`, `" and 4 "`, `"16-inch Wheels"`: engine text, wheel count, then the first wheel's text |
| Vehicles.Engine.ToString | vehicles.py:85-87 | an engine displays as its type followed by `" Engine"` |
| Vehicles.Wheel.ToString | vehicles.py:103-105 | a wheel displays as the canonical `str()` of its size, which reads back as the size, followed by `"-inch Wheels"` |
| Sequences.FirstIndex | vehicles.py:59-60 | for a list holding the element, the position found holds it and no earlier position does |
| Sequences.RemoveFirst | vehicles.py:59-60 | `list.remove` shortens a list that holds the element by exactly one and leaves a list without it unchanged |
| Sequences.RemoveFirstSplits | vehicles.py:60 | `list.remove` leaves exactly the elements before the first occurrence and those after it, in order |
| Sequences.RemoveFirstMultiset | vehicles.py:60 | `list.remove` takes exactly one copy of the element out of the multiset of elements, or none when it is absent |
| Sequences.RemoveFirstAfterAppend | vehicles.py:50-60 | appending an absent element and removing it restores the list |
| Sequences.RemoveAt | game.py:134 | `list.pop(i)` keeps the elements before `i` in place, shifts the later ones down by one, and removes exactly the popped element from the multiset |
| Text.NatToString | vehicles.py:105 | decimal text of a non-negative int is non-empty and all digits; it starts with `0` exactly when the number is zero, and zero is exactly `"0"` |
| Text.IntToString | vehicles.py:69 | `str()` of an int is non-empty and starts with `-` exactly for negative numbers, with digits after the sign; it has no leading zero: a non-negative text starting with `0` is exactly `"0"`, and the first digit after a sign is never `0` |
| Text.ParseIntToString | game.py:125-132 | `int(str(n)) == n`: the number the menu prints reads back as the same number |
| Text.Join | family.py:34 | joining no parts gives the empty text, joining one part gives that part unchanged, and any non-empty join starts with the first part |
| Text.JoinSnoc | family.py:33-34 | joining one more part appends exactly the separator and that part |
| Families.NewFamily | family.py:13-19 | a new family has the given surname and no members |
| Families.AddMember | family.py:22-28 | `add_member` appends the member at the end even when already present; the member count grows by one; the surname is unchanged |
| Families.AddMembersRecordsSequence | family.py:22-25 | after any run of `add_member` calls the members are the earlier ones followed by exactly the added sequence, in order and with repeats |
| Families.NewFamilyThenAdd | family.py:13-25 | a new family that has had `ms` added holds exactly `ms` and keeps its surname |
| Families.Names | family.py:33 | the name list has one entry per member, the i-th being the i-th member's name |
| Families.ToString | family.py:30-34 | the display starts with `"The <surname> Family: "` and is exactly that prefix for a family without members |
| Families.ToStringAfterAdd | family.py:30-34 | adding a member extends the display by `", "` (none before the first member) and that member's name |
| Characters.New | base_characters.py:13-22 | each constructor stores name, age and secret verbatim and creates the chosen class; Homer starts with no beers and no car, Bart with no skateboard; `get_secret` returns the secret and `str` the name |
| Characters.Speak | simpson_characters.py:27-148 | the utterance is never empty; the base class (base_characters.py:25-29) says `"Hello from " + name + " (base Simpson)!"`; Homer says `"D'oh!"`, Marge `"Hmmmm..."`, Bart `"Eat my shorts!"`, Lisa `"I'm going to become President someday!"` and Maggie `"*Pacifier sound*"`, whatever their name or state |
| Characters.Initial | simpson_characters.py:14-22 | a fresh instance keeps its class; Homer starts with no beers and no car, Bart (simpson_characters.py:99-105) with no skateboard |
| Characters.SpeakDistinguishesVariants | simpson_characters.py:27-148 | characters of different classes never say the same line; two characters of the same overriding class always do, whatever their name or state |
| Characters.WorkRoutine | simpson_characters.py:39-67 | `go_to_work` has four steps in order: dress, commute, enter the plant (by its display), clock in; the commute is a walk exactly when Homer has no car, otherwise driving that car |
| Characters.WorkRoutineUnaffected | simpson_characters.py:39-81 | none of Homer's methods changes how he gets to work: `go_to_work` takes the same steps before and after `drink`, `eat_donuts`, `go_to_work` or `pay_for_item` |
| Characters.DrinkBeer | simpson_characters.py:70-73 | `drink` appends the beer to Homer's history and changes nothing else |
| Characters.ChangeSkateboard | simpson_characters.py:113-120 | `set_skateboard` sets Bart's skateboard to the argument, `None` included, and changes nothing else |
| Characters.Perform | simpson_characters.py:32-137 | no variant method changes name, age, secret or class; `drink` and `set_skateboard` have their stated effects; `eat_donuts`, `go_to_work`, `pay_for_item` and `play` leave the character unchanged |
| Characters.DrinkAllHistory | simpson_characters.py:14-73 | Homer's history after drinking a sequence of beers is the earlier history followed by that sequence, in order and with repeats |
| Characters.SkateboardLastWins | simpson_characters.py:113-116 | two `set_skateboard` calls leave the same state as the second alone |
| Items.DuffBeer.ToString | items.py:16-18 | the display is `"Duff "`, the brand, then `" Beer"`, so the brand can be read back |
| Items.Skateboard.ToString | items.py:33-35 | the display is the model followed by `" Skateboard"` |
| Items.NuclearPlant.ToString | items.py:51-53 | the plant displays as exactly its name |
| Items.Saxophone.ToString | items.py:69-71 | the display is the type followed by `" Saxophone"` |
| Items.ToStringInjective | items.py:11-71 | two items of the same kind with equal displays are equal |
| Game.Setup | game.py:29-63 | after setup the five characters have their classes and names, the family "Simpson" holds Homer, Marge, Bart, Lisa and Maggie in that order, and Bart owns the skateboard; each character has the age and secret the script passes; the plant, the Duff, the skateboard and the saxophone have their script values; Homer has no beers and his car is the new Pink Sedan, and the world's car is that same car with Homer set as driver and no occupants, so boarding starts from an empty car |
| Game.Daytime | game.py:76-92 | going to work, playing the saxophone and the two payments leave the whole world unchanged |
| Game.Evening | game.py:104-111 | the drinking branch is taken exactly on `"1"` and the donut branch exactly on `"2"`; the drinking branch appends the Duff to Homer's history and keeps his name, age, secret and car and every other object; every other input changes nothing |
| Game.BoardingOrder | game.py:121-160 | the seating has five places with Homer first; a valid pick k puts member k second and the other three after it in menu order; anything else gives Homer, Marge, Bart, Lisa, Maggie |
| Game.BoardingOrderIsPermutation | game.py:131-160 | for every choice, the seating is a rearrangement of the five family members |
| Game.BoardChosenFirst | game.py:134-144 | the driver, the chosen member and then the rest board in that order up to five seats; "Car is full!" is reached exactly when some of the rest are left out; with room for all of them everyone boards and it is never reached; only the occupants change and the 0..5 bound is kept |
| Game.Board | game.py:131-160 | from any car within the bound the final occupants are the earlier ones followed by the intended seating, cut at five; "Car is full!" is reached exactly for a valid pick into a car that was not empty; from the empty car `Setup` leaves, the occupants are exactly the intended seating and it is never reached; only the occupants change |
| Game.BoardPick | game.py:133-144 | a valid pick seats Homer, the chosen member and the others in menu order after any earlier occupants, cut at five, reaching "Car is full!" exactly when the car was not empty |
| Game.RunGame | game.py:18-163 | the whole day ends with five occupants in the intended seating and Homer first, with Homer driving, the parts intact and "Car is full!" never reached; Homer has drunk one Duff exactly when the evening input was `"1"`; the family holds all five members; the car displays as `"Pink Sedan with V8 Engine and 4 16-inch Wheels"`; Homer's own car field shows the same display and has the built parts, and his `go_to_work` drives it; the occupant names listed at the end start with `"Homer"`, and after a valid pick the second is the name the menu showed for that number |
| Game.MorningLines | game.py:68-72 | in the morning Homer, Marge, Bart, Lisa and Maggie say "D'oh!", "Hmmmm...", "Eat my shorts!", "I'm going to become President someday!" and "*Pacifier sound*" |
| Game.PickBartScenario | game.py:131-144 | entering 2 seats Homer, Bart, Marge, Lisa, Maggie |
| Game.RejectedChoiceScenarios | game.py:146-160 | 9, 0, -1 and unparsable text all give the fallback seating |
| Game.MenuNumberSelectsMember | game.py:125-134 | typing the number the menu prints beside a member seats that member right after Homer |

## Left out

- Console I/O is not modelled: every `print` and `input` and `wait_for_player` (game.py:13-15). The notifications of `add_member`, `set_driver`, `add_occupant`, `remove_occupant`, `set_skateboard`, `drink`, `eat_donuts`, `pay_for_item` and `play` are text only, so they are not modelled either. The model keeps their state effects, and `Game.Board` reports the "Car is full!" branch as a flag.
- Python's `int()` parsing rules (whitespace, signs, underscores) at game.py:132 are abstracted as "parses to some integer or raises". `Text.ParseInt` covers only the canonical texts that `str()` writes.
- interfaces.py (`CanSpeak.speak` raising `NotImplementedError`): every class overrides it, so `Characters.Speak` is total. The model has no abstract base.
- main.py only adjusts `sys.path` and calls `run_game`. The `time` import in game.py is unused.
- Methods called on the wrong class (an `AttributeError` in Python) are outside the model. `Characters.Perform`, `DrinkBeer` and `ChangeSkateboard` require the class that defines the method.
- Python truthiness in `set_driver`, `set_skateboard` and `_drive` only selects narration text. The one place it affects the modelled state is `_drive`, and there a car object is always truthy, so `Characters.WorkRoutine` tests for `None`.
- Shared mutable references are not modelled as such. Homer's `car` field is a snapshot value, which is justified above. Characters in the car and the family are references, and their names never change.
- Direct attribute mutation (`name`, `age` are public in Python) is not modelled. The script never does it.
- Vehicles.ToString and Vehicles.PartsToString require a non-empty wheel list because Python's `wheels[0]` raises otherwise. Every car built by the constructor has four wheels.
- Sequences.RemoveFirst returns the list unchanged for an absent element instead of raising `ValueError`. The car always checks `in` first (vehicles.py:59), so the raise never happens.
- Characters.GetSecret and Characters.ToString carry no contract of their own. `Characters.New` states what they return for every constructed character.
