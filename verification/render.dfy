/**
 * The text the converter writes, as pure functions of a record: the YAML
 * header-field lines, the ingredient and potion YAML blocks, the Lua table
 * entry of an ingredient and the two framed documents.
 */
module Render {
  import opened Records
  import opened Paths

  // ---------------------------------------------------------------- fields

  /** A field value as it is written: paths are normalised, the rest copied. */
  function Shown(f: Field, v: string): string
  {
    if IsPath(f) then NormalizePath(v) else v
  }

  function FieldLine(f: Field, v: string): string
  {
    "    " + FieldName(f) + ": " + v + "\n"
  }

  /** The warning printed for a record that lacks a field. */
  function WarningText(id: string, f: Field): string
  {
    "Warning: ingredient " + id + " doesn't have a " + FieldName(f)
  }

  /** The warning names the record id and, at its end, the missing field. */
  lemma WarningNames(id: string, f: Field)
    ensures |WarningText(id, f)| >= 20 + |id|
    ensures WarningText(id, f)[20..20 + |id|] == id
    ensures WarningText(id, f)[|WarningText(id, f)| - |FieldName(f)|..] == FieldName(f)
  {
  }

  /** What one field contributes to the YAML: its line when present, nothing otherwise. */
  function FieldText(f: Field, v: Option<string>): string
  {
    match v
    case None => ""
    case Some(x) => FieldLine(f, Shown(f, x))
  }

  /**
   * Name, weight and value are written verbatim; model and icon come out
   * normalised. Writing a value that was already written gives the same line
   * again, since normalising a normalised path changes nothing.
   */
  lemma FieldTextStable(f: Field, v: string)
    ensures !IsPath(f) ==> FieldText(f, Some(v)) == FieldLine(f, v)
    ensures IsPath(f) ==> FieldText(f, Some(v)) == FieldLine(f, NormalizePath(v))
    ensures FieldText(f, Some(Shown(f, v))) == FieldText(f, Some(v))
  {
    if IsPath(f) {
      NormalizePathIdempotent(v);
    }
  }

  /** What one field contributes to the warnings: one warning when it is missing. */
  function FieldWarning(id: string, f: Field, v: Option<string>): seq<string>
  {
    if v.None? then [WarningText(id, f)] else []
  }

  /** What the fields `fs` contribute to the YAML, in the order of `fs`. */
  function FieldTexts(r: Record, fs: seq<Field>): string
  {
    if fs == [] then "" else FieldText(fs[0], FieldOf(r, fs[0])) + FieldTexts(r, fs[1..])
  }

  /** What the fields `fs` contribute to the warnings, in the order of `fs`. */
  function FieldWarningsFor(r: Record, fs: seq<Field>): seq<string>
  {
    if fs == [] then [] else FieldWarning(r.id, fs[0], FieldOf(r, fs[0])) + FieldWarningsFor(r, fs[1..])
  }

  /** The field lines of a record, written in the fixed order name, model, icon, weight, value. */
  function FieldsText(r: Record): string
  {
    FieldTexts(r, FieldOrder)
  }

  function FieldWarnings(r: Record): seq<string>
  {
    FieldWarningsFor(r, FieldOrder)
  }

  // Reference view of the field writer: the present fields and the missing
  // fields of a record, each in the order of `fs`.

  function Present(r: Record, fs: seq<Field>): (ps: seq<Field>)
    ensures forall f :: f in ps ==> f in fs && FieldOf(r, f).Some?
  {
    if fs == [] then []
    else if FieldOf(r, fs[0]).Some? then [fs[0]] + Present(r, fs[1..])
    else Present(r, fs[1..])
  }

  function Missing(r: Record, fs: seq<Field>): (ms: seq<Field>)
    ensures forall f :: f in ms ==> f in fs && FieldOf(r, f).None?
  {
    if fs == [] then []
    else if FieldOf(r, fs[0]).None? then [fs[0]] + Missing(r, fs[1..])
    else Missing(r, fs[1..])
  }

  /** The lines of the given fields, all of which the record has. */
  function LinesOf(r: Record, fs: seq<Field>): string
    requires forall f :: f in fs ==> FieldOf(r, f).Some?
  {
    if fs == [] then ""
    else FieldLine(fs[0], Shown(fs[0], FieldOf(r, fs[0]).value)) + LinesOf(r, fs[1..])
  }

  function WarningsOf(id: string, fs: seq<Field>): seq<string>
  {
    if fs == [] then [] else [WarningText(id, fs[0])] + WarningsOf(id, fs[1..])
  }

  /**
   * The field writer emits exactly the lines of the present fields, in field
   * order, and exactly one warning per missing field, in field order; every
   * field is either present or missing. `FieldsText` and `FieldWarnings` are
   * the case `fs == FieldOrder`.
   */
  lemma {:induction false} FieldsInOrder(r: Record, fs: seq<Field>)
    ensures FieldTexts(r, fs) == LinesOf(r, Present(r, fs))
    ensures FieldWarningsFor(r, fs) == WarningsOf(r.id, Missing(r, fs))
    ensures |Present(r, fs)| + |Missing(r, fs)| == |fs|
  {
    if fs != [] {
      FieldsInOrder(r, fs[1..]);
      var ps := Present(r, fs);
      if FieldOf(r, fs[0]).Some? {
        assert ps[0] == fs[0] && ps[1..] == Present(r, fs[1..]);
      }
    }
  }

  // ------------------------------------------------------------ YAML blocks

  /** The tail block followed by one newline, or nothing when there is no tail. */
  function TailText(tail: string): string
  {
    if tail == "" then "" else tail + "\n"
  }

  function IngredientKey(id: string): string
  {
    "  \"Ingredient::" + id + "\":\n"
  }

  /** The ingredient key with an explicit null value. */
  function NulledIngredientKey(id: string): string
  {
    "  \"Ingredient::" + id + "\": ~\n"
  }

  function PotionKey(id: string): string
  {
    "  \"Potion::" + id + "\":\n"
  }

  const IngredientType: string := "    type: Ingredient\n"
  const PotionType: string := "    type: Potion\n"
  const NoEffects: string := "    effects: []\n"

  /** The YAML block of an ingredient: its effects are replaced by an empty list. */
  function IngredientYaml(r: Record): string
  {
    IngredientKey(r.id) + IngredientType + FieldsText(r) + NoEffects + TailText(r.tail)
  }

  /** The fixed settings and single effect of every generated potion. */
  const PotionTemplate: string :=
    "    autocalc: false\n"
    + "    effects:\n"
    + "      - effect_type: RestoreFatigue\n"
    + "        range: SelfType\n"
    + "        area: 0\n"
    + "        duration: 120\n"
    + "        min_magnitude: 1\n"
    + "        max_magnitude: 1\n"

  /** The YAML of a potion: the ingredient is nulled out and a potion takes its place. */
  function PotionYaml(r: Record): string
  {
    NulledIngredientKey(r.id) + PotionKey(r.id) + PotionType + FieldsText(r) + PotionTemplate
      + TailText(r.tail)
  }

  // -------------------------------------------------------------- Lua entry

  /** A descriptor with no qualifier: the quoted effect type. */
  function BareDescriptor(kind: string): string
  {
    "    \"" + kind + "\",\n"
  }

  /** The opening of a descriptor that pairs the effect type with a qualifier. */
  function PairOpening(kind: string): string
  {
    "    { \"" + kind + "\" "
  }

  function PairQualifier(q: string): string
  {
    ", \"" + q + "\" "
  }

  const PairClosing: string := "},\n"

  /** The Lua descriptor line of one effect; an attribute wins over a skill. */
  function Descriptor(e: Effect): string
  {
    if e.attr != "" || e.skill != "" then
      PairOpening(e.kind) + PairQualifier(if e.attr != "" then e.attr else e.skill) + PairClosing
    else
      BareDescriptor(e.kind)
  }

  function Descriptors(effects: seq<Effect>): string
  {
    if effects == [] then "" else Descriptor(effects[0]) + Descriptors(effects[1..])
  }

  function EntryHead(id: string): string
  {
    "  [\"" + id + "\"] = {\n"
  }

  const EntryEnd: string := "  },\n"

  /** The Lua table entry of an ingredient, one descriptor per effect. */
  function LuaEntry(r: Record): string
  {
    EntryHead(r.id) + Descriptors(r.effects) + EntryEnd
  }

  // ------------------------------------------------------------ documents

  /** A record becomes a potion when its only effect is RestoreFatigue. */
  predicate IsPotionRecord(r: Record)
  {
    |r.effects| == 1 && r.effects[0].kind == "RestoreFatigue"
  }

  lemma PotionByTypes(r: Record)
    ensures IsPotionRecord(r) <==> Types(r.effects) == ["RestoreFatigue"]
  {
    if |r.effects| == 1 {
      assert Types(r.effects)[0] == r.effects[0].kind;
    }
  }

  function YamlBlock(r: Record): string
  {
    if IsPotionRecord(r) then PotionYaml(r) else IngredientYaml(r)
  }

  function LuaBlock(r: Record): string
  {
    if IsPotionRecord(r) then "" else LuaEntry(r)
  }

  /** The blocks of the records, one after the other in document order. */
  function Joined<T>(rs: seq<Record>, block: Record -> seq<T>): seq<T>
  {
    if rs == [] then [] else block(rs[0]) + Joined(rs[1..], block)
  }

  function YamlBody(rs: seq<Record>): string
  {
    Joined(rs, YamlBlock)
  }

  function LuaBody(rs: seq<Record>): string
  {
    Joined(rs, LuaBlock)
  }

  /** The warnings of all records, in document order. */
  function Warnings(rs: seq<Record>): seq<string>
  {
    Joined(rs, FieldWarnings)
  }

  function YamlDocument(header: string, rs: seq<Record>): string
  {
    header + "\n" + YamlBody(rs)
  }

  const LuaOpen: string := "return {\n"
  const LuaClose: string := "}\n"

  function LuaDocument(rs: seq<Record>): string
  {
    LuaOpen + LuaBody(rs) + LuaClose
  }

  // ------------------------------------------------------------ properties

  /** Appending one effect appends its descriptor. */
  lemma {:induction false} DescriptorsSnoc(effects: seq<Effect>, e: Effect)
    ensures Descriptors(effects + [e]) == Descriptors(effects) + Descriptor(e)
  {
    if effects == [] {
      assert [e][1..] == [];
    } else {
      assert (effects + [e])[0] == effects[0] && (effects + [e])[1..] == effects[1..] + [e];
      DescriptorsSnoc(effects[1..], e);
    }
  }

  /** Appending one record appends its block. */
  lemma {:induction false} JoinedSnoc<T>(rs: seq<Record>, r: Record, block: Record -> seq<T>)
    ensures Joined(rs + [r], block) == Joined(rs, block) + block(r)
  {
    if rs == [] {
      assert [r][1..] == [];
    } else {
      assert (rs + [r])[0] == rs[0] && (rs + [r])[1..] == rs[1..] + [r];
      JoinedSnoc(rs[1..], r, block);
    }
  }

  lemma {:induction false} FieldTextsIgnoreTail(r: Record, t: string, fs: seq<Field>)
    ensures FieldTexts(r.(tail := t), fs) == FieldTexts(r, fs)
  {
    if fs != [] {
      FieldTextsIgnoreTail(r, t, fs[1..]);
    }
  }

  lemma TailPassesThrough(r: Record)
    ensures YamlBlock(r) == YamlBlock(r.(tail := "")) + TailText(r.tail)
    ensures r.tail != "" ==> YamlBlock(r)[|YamlBlock(r)| - |r.tail| - 1..] == r.tail + "\n"
    ensures LuaBlock(r) == LuaBlock(r.(tail := ""))
  {
    FieldTextsIgnoreTail(r, "", FieldOrder);
  }
}
