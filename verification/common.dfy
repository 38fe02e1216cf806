/** Vocabulary shared by every part of the model. */
module Common {

  /** Python's "an object or `None`": the car's driver, Homer's car and
      Bart's skateboard. */
  datatype Option<+T> = None | Some(value: T)

  /** The identity of a character object. The car's occupants and driver and
      the family's members are shared references to characters, and Python's
      `in` and `list.remove` compare these objects (which define no `__eq__`)
      by identity, so the model stores and compares references. */
  type Ref = nat
}
