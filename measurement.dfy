/** A measurement: an amount paired with a unit drawn from a closed list. */
module Measurements {
  import opened Wrappers
  import opened Text
  import opened Json

  const AllowedUnits: seq<string> :=
    ["mg", "oz", "g", "CD", "kg", "lb", "t", "s", "second", "min", "h",
     "day", "wk", "mo", "yr", "decade", "century"]

  /** The state of a Measurement. The amount is stored as given. */
  datatype Measurement = Measurement(amount: Json, unit: string)

  /** Membership in `AllowedUnits`, written out one comparison per unit
      (UnitsListed proves the two agree). */
  predicate IsAllowedUnit(u: string)
  {
    u == "mg" || u == "oz" || u == "g" || u == "CD" || u == "kg" || u == "lb" || u == "t"
      || u == "s" || u == "second" || u == "min" || u == "h" || u == "day" || u == "wk"
      || u == "mo" || u == "yr" || u == "decade" || u == "century"
  }

  predicate Valid(m: Measurement) { IsAllowedUnit(m.unit) }

  const UnitError := ValueError("unit is not an allowed unit")

  /** `Measurement(amount, unit)`. */
  function New(amount: Json, unit: Json): (r: Result<Measurement>)
    ensures r.Ok? <==> unit.JStr? && IsAllowedUnit(unit.s)
    ensures r.Ok? ==> r.value.amount == amount && r.value.unit == unit.s && Valid(r.value)
    ensures !unit.JStr? ==> r == Err(TypeError)
    ensures unit.JStr? && !IsAllowedUnit(unit.s) ==> r == Err(UnitError)
  {
    if !unit.JStr? then Err(TypeError)
    else if !IsAllowedUnit(unit.s) then Err(UnitError)
    else Ok(Measurement(amount, unit.s))
  }

  /** The keys of a keyword dict, each of which must name a parameter. */
  predicate OnlyKeys(ms: seq<Member>, names: set<string>)
  {
    forall i :: 0 <= i < |ms| ==> ms[i].key in names
  }

  /** `Measurement(**d)`: the dict must supply exactly `amount` and `unit`. */
  function FromKwargs(d: Json): (r: Result<Measurement>)
    ensures r.Ok? ==> d.JObj? && Valid(r.value)
    ensures r.Ok? ==> Find(d.members, "amount") == Some(r.value.amount)
    ensures r.Ok? ==> Find(d.members, "unit") == Some(JStr(r.value.unit))
  {
    if !d.JObj? || !OnlyKeys(d.members, {"amount", "unit"}) then Err(TypeError)
    else
      var a := Find(d.members, "amount");
      var u := Find(d.members, "unit");
      if a.None? || u.None? then Err(TypeError) else New(a.value, u.value)
  }

  /** `m1 == m2`. */
  function Eq(m1: Measurement, m2: Measurement): bool
  {
    PyEq(m1.amount, m2.amount) && m1.unit == m2.unit
  }

  /** `str(m)`: the amount immediately followed by the unit. */
  function Render(m: Measurement): string
  {
    Str(m.amount) + m.unit
  }

  /** `m.to_dict()`. */
  function ToDict(m: Measurement): Json
  {
    JObj([Member("amount", m.amount), Member("unit", JStr(m.unit))])
  }

  /** `amount * 0.453592` in exact decimal arithmetic. */
  function TimesLbFactor(amount: Json): (r: Result<Json>)
    ensures r.Ok? <==> IsNumber(amount)
    ensures r.Ok? ==> r.value.JFloat?
  {
    if IsNumber(amount) then
      var (m, e) := Scaled(amount);
      Ok(JFloat(m * 453592, e + 6))
    else Err(TypeError)
  }

  /** The state `to_kilograms` leaves behind, or what it raises. */
  function Converted(m: Measurement): Result<Measurement>
  {
    if m.unit == "lb" then
      var a :- TimesLbFactor(m.amount);
      Ok(Measurement(a, "kg"))
    else if m.unit == "kg" then Ok(m)
    else Err(ValueError("Cannot convert " + m.unit + " to kilograms"))
  }

  /** A Measurement object, whose `to_kilograms` rewrites it in place. */
  class MeasurementObject {
    var amount: Json
    var unit: string

    function Value(): Measurement
      reads this
    {
      Measurement(amount, unit)
    }

    constructor(m: Measurement)
      ensures Value() == m
    {
      amount, unit := m.amount, m.unit;
    }

    /** `to_kilograms()`: converts a pound amount, keeps a kilogram one and
        raises for every other unit, leaving the object unchanged. */
    method ToKilograms() returns (r: Result<()>)
      modifies this
      ensures r.Ok? <==> Converted(old(Value())).Ok?
      ensures r.Ok? ==> Value() == Converted(old(Value())).value
      ensures r.Err? ==> Value() == old(Value()) && r.error == Converted(old(Value())).error
    {
      if unit == "lb" {
        var a := TimesLbFactor(amount);
        if a.Err? {
          return Err(a.error);
        }
        amount := a.value;
        unit := "kg";
      } else if unit == "kg" {
      } else {
        return Err(ValueError("Cannot convert " + unit + " to kilograms"));
      }
      r := Ok(());
    }
  }

  // ---------------------------------------------------------------- lemmas

  /** The written-out test accepts exactly the listed units. */
  lemma UnitsListed(u: string)
    ensures IsAllowedUnit(u) <==> u in AllowedUnits
  {
  }

  lemma AllowedUnitsDistinct()
    ensures |AllowedUnits| == 17
    ensures forall i, j :: 0 <= i < j < |AllowedUnits| ==> AllowedUnits[i] != AllowedUnits[j]
  {
  }

  /** Equality holds exactly when amount and unit are equal, and every
      measurement equals itself. */
  lemma EqReflexive(m: Measurement)
    requires Wf(m.amount)
    ensures Eq(m, m)
  {
    PyEqReflexive(m.amount);
  }

  /** Rebuilding a measurement from its dict gives the same measurement. */
  lemma ToDictRoundTrip(m: Measurement)
    requires Valid(m)
    ensures FromKwargs(ToDict(m)) == Ok(m)
  {
  }

  /** The dict rebuilt from `to_dict` compares equal to the original. */
  lemma ToDictRoundTripEq(m: Measurement)
    requires Valid(m) && Wf(m.amount)
    ensures FromKwargs(ToDict(m)).Ok? && Eq(FromKwargs(ToDict(m)).value, m)
  {
    ToDictRoundTrip(m);
    EqReflexive(m);
  }

  /** A kilogram measurement is left as it is. */
  lemma ConvertKgUnchanged(m: Measurement)
    requires m.unit == "kg"
    ensures Converted(m) == Ok(m)
  {
  }

  /** A pound measurement with a numeric amount becomes a kilogram one, and
      converting it again changes nothing. */
  lemma ConvertLbThenIdempotent(m: Measurement)
    requires m.unit == "lb" && IsNumber(m.amount)
    ensures Converted(m).Ok? && Converted(m).value.unit == "kg"
    ensures Valid(Converted(m).value)
    ensures Converted(Converted(m).value) == Converted(m)
  {
  }

  /** Every other unit raises a ValueError naming the unit. */
  lemma ConvertOtherUnitFails(m: Measurement)
    requires m.unit != "lb" && m.unit != "kg"
    ensures Converted(m) == Err(ValueError("Cannot convert " + m.unit + " to kilograms"))
  {
  }

  /** Two pounds convert to exactly 0.907184 kilograms. */
  lemma ConvertTwoPounds()
    ensures Converted(Measurement(JInt(2), "lb")) == Ok(Measurement(JFloat(907184, 6), "kg"))
  {
  }
}
