/** ProcessGraph.Domain.Shared.UnitOfMeasure: a closed set of three named
    units, a lookup by name that throws on an unknown name, and the printer. */
module Units {
  import opened Primitives

  datatype UnitOfMeasure = Points | Days | Weeks

  /** The `Unit` property, which `ToString` returns. */
  function Name(u: UnitOfMeasure): (r: string)
    ensures r == "points" || r == "days" || r == "weeks"
  {
    match u
    case Points => "points"
    case Days => "days"
    case Weeks => "weeks"
  }

  /** `UnitOfMeasure.All`, in declaration order. */
  const All: seq<UnitOfMeasure> := [Points, Days, Weeks]

  const InvalidName: Exception := ApplicationException("Unit of measure name is invalid")

  /** `units.FirstOrDefault(u => u.Unit == name)`: the first unit in `units`
      whose name is `name`, or null when there is none. */
  function FirstWithName(units: seq<UnitOfMeasure>, name: string): (r: Option<UnitOfMeasure>)
    ensures r.None? <==> forall i :: 0 <= i < |units| ==> Name(units[i]) != name
    ensures r.Some? ==> exists i :: 0 <= i < |units| && units[i] == r.value
                          && Name(units[i]) == name
                          && forall j :: 0 <= j < i ==> Name(units[j]) != name
  {
    if units == [] then None
    else if Name(units[0]) == name then Some(units[0])
    else
      var r := FirstWithName(units[1..], name);
      assert forall i :: 0 <= i < |units| - 1 ==> units[1..][i] == units[i + 1];
      r
  }

  /** `UnitOfMeasure.FromName`: the unit of `All` named `name`; throws an
      ApplicationException for any other string. Matching is exact and
      case-sensitive. */
  function FromName(name: string): (r: Fallible<UnitOfMeasure>)
    ensures r.Value? <==> name == "points" || name == "days" || name == "weeks"
    ensures r.Value? ==> r.value in All && Name(r.value) == name
    ensures r.Throw? ==> r.exception == InvalidName
  {
    match FirstWithName(All, name)
    case Some(u) => Value(u)
    case None =>
      assert Name(All[0]) != name && Name(All[1]) != name && Name(All[2]) != name;
      Throw(InvalidName)
  }

  /** Printing a unit and parsing the text back gives the unit again. */
  lemma FromNameOfName(u: UnitOfMeasure)
    ensures FromName(Name(u)) == Value(u)
  {
    assert Name(u) == Name(All[0]) || Name(u) == Name(All[1]) || Name(u) == Name(All[2]);
  }

  /** The three lower-case names and the units they denote. */
  lemma FromNameOfLowerCaseNames()
    ensures FromName("points") == Value(Points)
    ensures FromName("days") == Value(Days)
    ensures FromName("weeks") == Value(Weeks)
  {
    FromNameOfName(Points);
    FromNameOfName(Days);
    FromNameOfName(Weeks);
  }

  /** Matching is case-sensitive: capitalised names are rejected. */
  lemma FromNameIsCaseSensitive()
    ensures FromName("Days") == Throw(InvalidName)
    ensures FromName("POINTS") == Throw(InvalidName)
    ensures FromName("") == Throw(InvalidName)
  {
    assert "Days" != "days" by { assert "Days"[0] != "days"[0]; }
    assert "POINTS" != "points" by { assert "POINTS"[0] != "points"[0]; }
  }

  /** `All` lists every unit exactly once. */
  lemma AllIsComplete(u: UnitOfMeasure)
    ensures u in All
    ensures |All| == 3
    ensures forall i, j :: 0 <= i < j < |All| ==> All[i] != All[j]
  {
  }

  /** Distinct units print differently, so printing is injective. */
  lemma NameIsInjective(u: UnitOfMeasure, v: UnitOfMeasure)
    requires Name(u) == Name(v)
    ensures u == v
  {
    FromNameOfName(u);
    FromNameOfName(v);
  }
}
