/**
 The few JavaScript value semantics both webhook handlers lean on: optional
 fields of a parsed JSON body, truthiness, the `||` default chains and the
 way a template literal renders a missing value.
 */
module Js {

  /** A JSON value that may be absent: `None` is a field that is missing, `undefined` or `null`. */
  datatype Option<+T> = None | Some(value: T)

  /** A string-valued field of a parsed JSON object. */
  type Field = Option<string>

  /** JavaScript truthiness of a string field: present and not the empty string. */
  predicate Truthy(v: Field) {
    v.Some? && v.value != ""
  }

  /** JavaScript truthiness of a numeric field: present and not zero. */
  predicate TruthyNumber(v: Option<int>) {
    v.Some? && v.value != 0
  }

  /** `i` is the position of the first truthy candidate. */
  predicate FirstTruthyAt(cands: seq<Field>, i: int) {
    && 0 <= i < |cands|
    && Truthy(cands[i])
    && forall j :: 0 <= j < i ==> !Truthy(cands[j])
  }

  /** No candidate is truthy. */
  predicate NoneTruthy(cands: seq<Field>) {
    forall i :: 0 <= i < |cands| ==> !Truthy(cands[i])
  }

  /** The value of `c0 || c1 || ... || last`: the first truthy candidate, and
      `last` itself (truthy or not) when there is none. */
  function OrChain(cands: seq<Field>, last: Field): (r: Field)
    ensures forall i :: FirstTruthyAt(cands, i) ==> r == cands[i]
    ensures NoneTruthy(cands) ==> r == last
    ensures Truthy(r) || r == last
    decreases |cands|
  {
    if |cands| == 0 then last
    else if Truthy(cands[0]) then cands[0]
    else
      var r := OrChain(cands[1..], last);
      assert forall i :: FirstTruthyAt(cands, i) ==> FirstTruthyAt(cands[1..], i - 1);
      r
  }

  /** The value of `c0 || c1 || ... || "default"`, the shape of every display
      field in both handlers. */
  function OrDefault(cands: seq<Field>, default: string): (r: string)
    ensures forall i :: FirstTruthyAt(cands, i) ==> r == cands[i].value
    ensures NoneTruthy(cands) ==> r == default
    ensures default != "" ==> r != ""
  {
    OrChain(cands, Some(default)).value
  }

  /** A one-candidate chain `v || "default"`. */
  lemma OrDefaultSingle(v: Field, default: string)
    ensures OrDefault([v], default) == if Truthy(v) then v.value else default
  {
    assert Truthy(v) ==> FirstTruthyAt([v], 0);
  }

  /** How `${v}` renders a string field inside a template literal. */
  function Render(v: Field): string {
    match v
    case Some(s) => s
    case None => "undefined"
  }
}
