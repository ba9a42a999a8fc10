/**
 * The form-state objects the sign-up, login and profile pages keep, and the
 * pieces their handlers share: a change event's target, the value a handler
 * stores for it, the one-key spread update `{...form, [name]: value}`, and the
 * short-circuit chain of `!form.field` tests their validators start with.
 */
module FormRecord {
  import opened Basics

  /** A value a form-state object holds; `Undefined` is what reading a missing key gives. */
  datatype Value = Str(s: string) | Bool(b: bool) | Undefined

  /** A form-state object: its own keys and their values. */
  type Record = map<string, Value>

  /** `form[key]`, `undefined` when the key is absent. */
  function Get(form: Record, key: string): Value {
    if key in form then form[key] else Undefined
  }

  /** JavaScript falsiness of a form value: `!v` holds. */
  predicate Falsy(v: Value) {
    v == Str("") || v == Bool(false) || v == Undefined
  }

  /** A string is falsy exactly when empty, a boolean exactly when false, and `undefined` always. */
  lemma FalsyCases(s: string, b: bool)
    ensures Falsy(Str(s)) <==> s == ""
    ensures Falsy(Bool(b)) <==> !b
    ensures Falsy(Undefined)
  {
  }

  /** The fields of `e.target` the change handlers read. */
  datatype Target = Target(name: string, value: string, inputType: string, checked: bool)

  /** What a checkbox-aware handler stores: `checked` for a checkbox, `value` for any other input. */
  function CheckboxAwareValue(target: Target): (v: Value)
    ensures v.Bool? <==> target.inputType == "checkbox"
    ensures v.Bool? ==> v.b == target.checked
    ensures !v.Bool? ==> v == Str(target.value)
  {
    if target.inputType == "checkbox" then Bool(target.checked) else Str(target.value)
  }

  /** `{...form, [name]: v}`: the named key holds `v`, every other key keeps its value. */
  function Assign(form: Record, name: string, v: Value): (r: Record)
    ensures r.Keys == form.Keys + {name}
    ensures Get(r, name) == v
    ensures forall k :: k != name ==> Get(r, k) == Get(form, k)
  {
    form[name := v]
  }

  /** Every listed key holds a truthy value. */
  predicate AllPresent(form: Record, keys: seq<string>) {
    forall i :: 0 <= i < |keys| ==> !Falsy(Get(form, keys[i]))
  }

  /**
   * The position of the first listed key whose value is falsy, scanning left
   * to right as `!form.a || !form.b || ...` evaluates.
   */
  function FirstMissing(form: Record, keys: seq<string>): (m: Option<nat>)
    ensures m.None? <==> AllPresent(form, keys)
    ensures m.Some? ==> m.value < |keys| && Falsy(Get(form, keys[m.value]))
    ensures m.Some? ==> forall i :: 0 <= i < m.value ==> !Falsy(Get(form, keys[i]))
  {
    if keys == [] then None
    else if Falsy(Get(form, keys[0])) then Some(0)
    else
      match FirstMissing(form, keys[1..])
      case None => None
      case Some(j) => Some(j + 1)
  }

  /** How the promise an external authentication call returns settles. */
  datatype Settlement = Resolved | Rejected
}
