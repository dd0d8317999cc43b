/**
 * `macros.find(m => m.name.toLowerCase().includes(fragment))`: the free-text
 * macro lookup shared by the daily totals, the report and the share text.
 */
module NutrientMatch {
  import opened Wrappers
  import opened Js
  import opened Types

  const ProteinFragment := "prote"
  const CarbsFragment := "carbo"
  const FatFragment := "gord"

  /** The lower-cased name of `n` contains `fragment`. */
  predicate NameMatches(n: Nutrient, fragment: string) {
    Includes(ToLower(n.name), fragment)
  }

  /** The first macro whose name matches `fragment`, or None when none does. */
  function FindMacro(macros: seq<Nutrient>, fragment: string): (r: Option<Nutrient>)
    ensures r.None? <==> forall i :: 0 <= i < |macros| ==> !NameMatches(macros[i], fragment)
    ensures r.Some? ==> exists i :: 0 <= i < |macros| && macros[i] == r.value && NameMatches(macros[i], fragment) &&
                                  forall j :: 0 <= j < i ==> !NameMatches(macros[j], fragment)
  {
    if macros == [] then None
    else if NameMatches(macros[0], fragment) then Some(macros[0])
    else
      var r := FindMacro(macros[1..], fragment);
      assert forall i :: 1 <= i < |macros| ==> macros[i] == macros[1..][i - 1];
      r
  }

  /** `find(...)?.amount || 0`: the amount of the first match, 0 when nothing matches. */
  function AmountOrZero(macros: seq<Nutrient>, fragment: string): (r: real)
    ensures FindMacro(macros, fragment).None? ==> r == 0.0
    ensures FindMacro(macros, fragment).Some? ==> r == FindMacro(macros, fragment).value.amount
  {
    match FindMacro(macros, fragment)
    case None => 0.0
    case Some(n) => n.amount
  }
}
