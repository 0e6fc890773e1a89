/** The external record that the test transactions mutate: a person with a
    name and an age (test/person/Person.js). JavaScript numbers are modelled
    as mathematical integers. */
module Persons {

  datatype Person = Person(name: string, age: int)

  /** `new Person(initName, initAge)`. */
  function NewPerson(initName: string, initAge: int): (p: Person)
    ensures GetName(p) == initName
    ensures GetAge(p) == initAge
  {
    Person(initName, initAge)
  }

  function GetName(p: Person): string
  {
    p.name
  }

  function GetAge(p: Person): int
  {
    p.age
  }

  /** Replaces the name; the age is left as it was. */
  function SetName(p: Person, initName: string): (q: Person)
    ensures GetName(q) == initName
    ensures GetAge(q) == GetAge(p)
  {
    p.(name := initName)
  }

  /** Replaces the age; the name is left as it was. */
  function SetAge(p: Person, initAge: int): (q: Person)
    ensures GetAge(q) == initAge
    ensures GetName(q) == GetName(p)
  {
    p.(age := initAge)
  }

  /** Field-wise comparison with `===` on both fields. */
  predicate Equals(p: Person, otherPerson: Person)
    ensures Equals(p, otherPerson) <==> p == otherPerson
  {
    p.name == otherPerson.name && p.age == otherPerson.age
  }

  /** The two getters observe the whole record: two persons that agree on
      both getters are the same person, and the getters read back exactly
      what the setters wrote. */
  lemma GetterSetterLaws(p: Person, q: Person, n: string, n': string, a: int, a': int)
    ensures GetName(p) == GetName(q) && GetAge(p) == GetAge(q) <==> p == q
    ensures SetName(p, GetName(p)) == p && SetAge(p, GetAge(p)) == p
    ensures SetName(SetName(p, n), n') == SetName(p, n')
    ensures SetAge(SetAge(p, a), a') == SetAge(p, a')
    ensures SetName(SetAge(p, a), n) == SetAge(SetName(p, n), a)
  {
  }

  /** `equals` is an equivalence relation. */
  lemma EqualsIsEquivalence(p: Person, q: Person, r: Person)
    ensures Equals(p, p)
    ensures Equals(p, q) ==> Equals(q, p)
    ensures Equals(p, q) && Equals(q, r) ==> Equals(p, r)
  {
  }
}
