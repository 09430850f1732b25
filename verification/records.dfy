/**
 * The records the converter works on, as the record scanner hands them over:
 * an ingredient id, the five optional scalar header fields, the ordered list of
 * effects and an optional verbatim tail block.
 */
module Records {

  datatype Option<+T> = None | Some(value: T)

  /**
   * One effect of an ingredient. `kind` is the effect type (`RestoreFatigue`,
   * `FortifyAttribute`, ...). An empty `attr` or `skill` means that qualifier
   * was not present, as the regular expression yields an empty group for it.
   */
  datatype Effect = Effect(kind: string, attr: string, skill: string)

  /**
   * One ingredient record. An empty `tail` means the record had no trailing
   * block.
   */
  datatype Record = Record(
    id: string,
    name: Option<string>,
    model: Option<string>,
    icon: Option<string>,
    weight: Option<string>,
    value: Option<string>,
    effects: seq<Effect>,
    tail: string)

  /** The five scalar header fields. */
  datatype Field = Name | Model | Icon | Weight | Value

  /** The order in which the header fields are written. */
  const FieldOrder: seq<Field> := [Name, Model, Icon, Weight, Value]

  /** The key under which a field is written in the YAML output. */
  function FieldName(f: Field): string
  {
    match f
    case Name => "name"
    case Model => "model"
    case Icon => "icon"
    case Weight => "weight"
    case Value => "value"
  }

  /** Only the model and icon fields are file paths, and only they are normalised. */
  predicate IsPath(f: Field)
  {
    f == Model || f == Icon
  }

  function FieldOf(r: Record, f: Field): Option<string>
  {
    match f
    case Name => r.name
    case Model => r.model
    case Icon => r.icon
    case Weight => r.weight
    case Value => r.value
  }

  /** The effect types of an effect list, in order. */
  function Types(effects: seq<Effect>): (types: seq<string>)
    ensures |types| == |effects|
    ensures forall i :: 0 <= i < |effects| ==> types[i] == effects[i].kind
  {
    seq(|effects|, i requires 0 <= i < |effects| => effects[i].kind)
  }
}
