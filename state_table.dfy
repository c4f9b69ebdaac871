/** Lookup in the state table by exact code match, as Array.prototype.find
    does it in TaxCalculator.calculateStateTax and calculateTaxes
    (src/utils/TaxCalculator.ts): the first entry whose code equals the
    requested one, or nothing. */
module StateTable {
  import opened TaxTypes

  /** The position of the first entry of `states` at or after `from` whose
      code equals `code`. */
  function FindFrom(states: seq<USState>, code: string, from: nat): (r: Option<nat>)
    decreases |states| - from
    ensures r.Some? ==>
      from <= r.value < |states| && states[r.value].code == code &&
      forall j :: from <= j < r.value ==> states[j].code != code
    ensures r.None? <==> forall j :: from <= j < |states| ==> states[j].code != code
  {
    if from >= |states| then None
    else if states[from].code == code then Some(from)
    else FindFrom(states, code, from + 1)
  }

  /** The position of the first entry whose code equals `code`, if any. */
  function FindState(states: seq<USState>, code: string): (r: Option<nat>)
    ensures r.Some? ==>
      r.value < |states| && states[r.value].code == code &&
      forall j :: 0 <= j < r.value ==> states[j].code != code
    ensures r.None? <==> forall j :: 0 <= j < |states| ==> states[j].code != code
  {
    FindFrom(states, code, 0)
  }

  /** The entry shown to the user: the matching one, or the first entry of
      the table when no code matches. */
  function DisplayState(states: seq<USState>, code: string): (s: USState)
    requires |states| > 0
    ensures s in states
    ensures FindState(states, code).Some? ==> s == states[FindState(states, code).value]
    ensures (exists j :: 0 <= j < |states| && states[j].code == code) ==> s.code == code
    ensures (forall j :: 0 <= j < |states| ==> states[j].code != code) ==> s == states[0]
  {
    match FindState(states, code)
    case Some(i) => states[i]
    case None => states[0]
  }
}
