/** The weight-unit preference (src/features/settings/UnitsProvider.tsx):
    the default from the device locale, the kg/lb conversions, and the
    preference as the provider keeps and stores it. The locale list and the
    stored text are inputs; the store is the `stored` field. */
module Units {
  import opened Wrappers

  datatype Units = Kg | Lb

  const STORAGE_KEY: string := "leanloop.units"

  /** Pounds per kilogram, as the app writes it. */
  const LB_PER_KG: real := 2.2046226218

  /** How a unit is stored. */
  function UnitsText(u: Units): string
  {
    match u
    case Kg => "kg"
    case Lb => "lb"
  }

  /** The saved-value check of the load effect: only exactly `kg` or `lb`
      is a unit. */
  function ParseUnits(saved: Option<string>): (u: Option<Units>)
    ensures u.Some? <==> saved == Some("kg") || saved == Some("lb")
    ensures u.Some? ==> saved == Some(UnitsText(u.value))
  {
    if saved == Some("kg") then Some(Kg)
    else if saved == Some("lb") then Some(Lb)
    else None
  }

  /** What is stored reads back as the same unit. */
  lemma StoredUnitsRoundTrip(u: Units)
    ensures ParseUnits(Some(UnitsText(u))) == Some(u)
  {
  }

  /** One entry of the device's locale list. */
  datatype Locale = Locale(regionCode: Option<string>)

  /** `toUpperCase` on ASCII letters; every other character is kept. */
  function UpperChar(c: char): (u: char)
    ensures 'a' <= c <= 'z' ==> u as int == c as int - 32
    ensures !('a' <= c <= 'z') ==> u == c
  {
    if 'a' <= c <= 'z' then (c as int - 32) as char else c
  }

  function ToUpper(s: string): (r: string)
    ensures |r| == |s|
    ensures forall i :: 0 <= i < |s| ==> r[i] == UpperChar(s[i])
  {
    seq(|s|, i requires 0 <= i < |s| => UpperChar(s[i]))
  }

  /** The region of the first locale, or the empty text. */
  function FirstRegion(locales: Option<seq<Locale>>): string
  {
    if locales.None? || |locales.value| == 0 then ""
    else locales.value[0].regionCode.GetOr("")
  }

  /** `defaultUnitsFromLocale`: pounds exactly for a first locale whose
      region is `US` in any letter case; kilograms otherwise, also with no
      locale or no region. */
  function DefaultUnitsFromLocale(locales: Option<seq<Locale>>): (u: Units)
    ensures u == Lb <==>
      var region := FirstRegion(locales);
      |region| == 2 && (region[0] == 'U' || region[0] == 'u') && (region[1] == 'S' || region[1] == 's')
  {
    if ToUpper(FirstRegion(locales)) == "US" then Lb else Kg
  }

  /** Only the first locale counts, and without one the default is kilograms. */
  lemma DefaultUnitsExamples(rest: seq<Locale>)
    ensures DefaultUnitsFromLocale(None) == Kg
    ensures DefaultUnitsFromLocale(Some([])) == Kg
    ensures DefaultUnitsFromLocale(Some([Locale(Some("us"))] + rest)) == Lb
    ensures DefaultUnitsFromLocale(Some([Locale(Some("GB")), Locale(Some("US"))] + rest)) == Kg
    ensures DefaultUnitsFromLocale(Some([Locale(None)] + rest)) == Kg
  {
    var us := [Locale(Some("us"))] + rest;
    assert FirstRegion(Some(us)) == "us";
    var gb := [Locale(Some("GB")), Locale(Some("US"))] + rest;
    assert FirstRegion(Some(gb)) == "GB";
    assert FirstRegion(Some([Locale(None)] + rest)) == "";
  }

  /** `toDisplayWeight`: kilograms in the chosen unit. */
  function ToDisplayWeight(units: Units, kg: real): (shown: real)
    ensures units == Kg ==> shown == kg
    ensures units == Lb ==> shown / LB_PER_KG == kg
  {
    if units == Lb then kg * LB_PER_KG else kg
  }

  /** `toKg`: a value in the chosen unit, in kilograms. */
  function ToKg(units: Units, value: real): (kg: real)
    ensures units == Kg ==> kg == value
    ensures units == Lb ==> kg * LB_PER_KG == value
  {
    if units == Lb then value / LB_PER_KG else value
  }

  /** Over exact reals the two conversions undo each other, in both orders. */
  lemma ConversionRoundTrip(units: Units, x: real)
    ensures ToKg(units, ToDisplayWeight(units, x)) == x
    ensures ToDisplayWeight(units, ToKg(units, x)) == x
  {
  }

  /** Pounds are the larger number for a positive weight, and the conversion
      keeps the order of two weights. */
  lemma DisplayWeightOrder(units: Units, a: real, b: real)
    ensures a > 0.0 && units == Lb ==> ToDisplayWeight(units, a) > a
    ensures a <= b ==> ToDisplayWeight(units, a) <= ToDisplayWeight(units, b)
  {
  }

  /** The provider's state: the unit in use and what the store holds under
      `STORAGE_KEY`. */
  class UnitsPreference {
    var units: Units
    var stored: Option<string>

    /** The initial state: the locale default; the store is as found. */
    constructor (locales: Option<seq<Locale>>, found: Option<string>)
      ensures units == DefaultUnitsFromLocale(locales) && stored == found
    {
      units := DefaultUnitsFromLocale(locales);
      stored := found;
    }

    /** The load effect: the stored text replaces the unit only when it
      names one. */
    method AdoptSaved()
      modifies this
      ensures units == ParseUnits(old(stored)).GetOr(old(units))
      ensures stored == old(stored)
    {
      var saved := ParseUnits(stored);
      if saved.Some? {
        units := saved.value;
      }
    }

    /** `setUnits`: the unit is set and stored. */
    method SetUnits(u: Units)
      modifies this
      ensures units == u && stored == Some(UnitsText(u))
    {
      units := u;
      stored := Some(UnitsText(u));
    }

    function Display(kg: real): real
      reads this
    {
      ToDisplayWeight(units, kg)
    }

    function FromDisplay(value: real): real
      reads this
    {
      ToKg(units, value)
    }
  }

  /** A unit chosen with `setUnits` is the unit of the next start, whatever
      the locale. */
  method ChoiceSurvivesRestart(pref: UnitsPreference, u: Units, locales: Option<seq<Locale>>)
    returns (next: UnitsPreference)
    modifies pref
    ensures next.units == u
  {
    pref.SetUnits(u);
    next := new UnitsPreference(locales, pref.stored);
    next.AdoptSaved();
  }
}
