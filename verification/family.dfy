/** The family (family.py): a surname and an ordered, unbounded list of
    member references to which members are only ever appended. Duplicates
    are not prevented. */
module Families {
  import opened Common
  import Text

  datatype Family = Family(lastName: string, members: seq<Ref>)

  /** `Family(lastName)`: the surname, no members yet. */
  function NewFamily(lastName: string): (f: Family)
    ensures f.lastName == lastName && f.members == []
  {
    Family(lastName, [])
  }

  /** `add_member(m)`: appended at the end even when already a member; the
      surname never changes. */
  function AddMember(f: Family, m: Ref): (r: Family)
    ensures r.members == f.members + [m]
    ensures |r.members| == |f.members| + 1
    ensures r.lastName == f.lastName
  {
    f.(members := f.members + [m])
  }

  /** A run of `add_member` calls, one per element of `ms`. */
  function AddMembers(f: Family, ms: seq<Ref>): (r: Family)
    ensures r.lastName == f.lastName
    decreases |ms|
  {
    if |ms| == 0 then f else AddMembers(AddMember(f, ms[0]), ms[1..])
  }

  /** Adding members one at a time records exactly that sequence, in order
      and with repeats. */
  lemma {:induction false} AddMembersRecordsSequence(f: Family, ms: seq<Ref>)
    ensures AddMembers(f, ms).members == f.members + ms
    decreases |ms|
  {
    if |ms| > 0 {
      AddMembersRecordsSequence(AddMember(f, ms[0]), ms[1..]);
      assert f.members + [ms[0]] + ms[1..] == f.members + ms;
    }
  }

  /** A new family that has had the members `ms` added holds exactly `ms`. */
  lemma NewFamilyThenAdd(lastName: string, ms: seq<Ref>)
    ensures AddMembers(NewFamily(lastName), ms).members == ms
    ensures AddMembers(NewFamily(lastName), ms).lastName == lastName
  {
    AddMembersRecordsSequence(NewFamily(lastName), ms);
  }

  /** The members' names in member order, given each character's name. */
  function Names(members: seq<Ref>, nameOf: Ref -> string): (names: seq<string>)
    ensures |names| == |members|
    ensures forall i :: 0 <= i < |members| ==> names[i] == nameOf(members[i])
  {
    seq(|members|, i requires 0 <= i < |members| => nameOf(members[i]))
  }

  const Separator := ", "

  /** `str(family)`: `"The <surname> Family: "` and then the member names
      joined by `", "`. */
  function ToString(f: Family, nameOf: Ref -> string): (s: string)
    ensures "The " + f.lastName + " Family: " <= s
    ensures f.members == [] ==> s == "The " + f.lastName + " Family: "
  {
    "The " + f.lastName + " Family: " + Text.Join(Names(f.members, nameOf), Separator)
  }

  /** The display grows with the family: one more member adds `", "` and
      that member's name at the end (no separator before the first). */
  lemma ToStringAfterAdd(f: Family, m: Ref, nameOf: Ref -> string)
    ensures ToString(AddMember(f, m), nameOf)
         == ToString(f, nameOf) + (if f.members == [] then "" else Separator) + nameOf(m)
  {
    var before := Names(f.members, nameOf);
    var after := Names(f.members + [m], nameOf);
    assert after == before + [nameOf(m)];
    if f.members == [] {
      assert after == [nameOf(m)];
    } else {
      Text.JoinSnoc(before, nameOf(m), Separator);
    }
  }
}
