/**
 * The converter itself: the two output buffers and the warning list, the
 * writers that append an ingredient or a potion to them, the potion
 * classifier and the driver that frames both outputs and sends every record
 * to exactly one writer, in document order.
 */
module Alchemistry {
  import opened Records
  import opened Paths
  import opened Render

  /** Decides whether the effect types are exactly one RestoreFatigue. */
  method IsPotion(effects: seq<Effect>) returns (potion: bool)
    ensures potion <==> Types(effects) == ["RestoreFatigue"]
  {
    var hadOne := false;
    for i := 0 to |effects|
      invariant i <= 1
      invariant hadOne <==> i == 1
      invariant i == 1 ==> effects[0].kind == "RestoreFatigue"
    {
      if effects[i].kind != "RestoreFatigue" || hadOne {
        assert Types(effects)[i] == effects[i].kind;
        return false;
      }
      hadOne := true;
    }
    assert hadOne ==> Types(effects) == [effects[0].kind];
    return hadOne;
  }

  /**
   * The state the writers share: the YAML and Lua outputs written so far and
   * the warnings printed so far. Every writer only appends.
   */
  class Emitter {
    var yamlOut: string
    var luaOut: string
    var warnings: seq<string>

    constructor ()
      ensures yamlOut == [] && luaOut == [] && warnings == []
    {
      yamlOut, luaOut, warnings := [], [], [];
    }

    /** Writes one header field, or warns that the record lacks it. */
    method WriteHeaderValue(id: string, f: Field, v: Option<string>)
      modifies this
      ensures yamlOut == old(yamlOut) + FieldText(f, v)
      ensures warnings == old(warnings) + FieldWarning(id, f, v)
      ensures luaOut == old(luaOut)
    {
      match v
      case None =>
        warnings := warnings + [WarningText(id, f)];
      case Some(x) =>
        var shown := x;
        if IsPath(f) {
          shown := NormalizePath(x);
        }
        yamlOut := yamlOut + FieldLine(f, shown);
    }

    /** Writes the five header fields of a record in their fixed order. */
    method WriteFields(r: Record)
      modifies this
      ensures yamlOut == old(yamlOut) + FieldsText(r)
      ensures warnings == old(warnings) + FieldWarnings(r)
      ensures luaOut == old(luaOut)
    {
      ghost var y0, w0 := yamlOut, warnings;
      WriteHeaderValue(r.id, Name, r.name);
      WriteHeaderValue(r.id, Model, r.model);
      WriteHeaderValue(r.id, Icon, r.icon);
      WriteHeaderValue(r.id, Weight, r.weight);
      WriteHeaderValue(r.id, Value, r.value);
      FieldsTextUnrolled(r);
      FieldWarningsUnrolled(r);
      Append5(y0, FieldText(Name, r.name), FieldText(Model, r.model),
        FieldText(Icon, r.icon), FieldText(Weight, r.weight), FieldText(Value, r.value));
      Append5(w0, FieldWarning(r.id, Name, r.name), FieldWarning(r.id, Model, r.model),
        FieldWarning(r.id, Icon, r.icon), FieldWarning(r.id, Weight, r.weight),
        FieldWarning(r.id, Value, r.value));
    }

    /** Writes the tail block and a newline, when the record has a tail. */
    method WriteTail(tail: string)
      modifies this
      ensures yamlOut == old(yamlOut) + TailText(tail)
      ensures luaOut == old(luaOut) && warnings == old(warnings)
    {
      if tail != "" {
        yamlOut := yamlOut + tail;
        yamlOut := yamlOut + "\n";
        Append2(old(yamlOut), tail, "\n");
      }
    }

    /** Writes the Lua descriptor line of one effect; an attribute wins over a skill. */
    method WriteDescriptor(e: Effect)
      modifies this
      ensures luaOut == old(luaOut) + Descriptor(e)
      ensures yamlOut == old(yamlOut) && warnings == old(warnings)
    {
      if e.attr != "" || e.skill != "" {
        luaOut := luaOut + PairOpening(e.kind);
        if e.attr != "" {
          luaOut := luaOut + PairQualifier(e.attr);
        } else if e.skill != "" {
          luaOut := luaOut + PairQualifier(e.skill);
        }
        luaOut := luaOut + PairClosing;
        Append3(old(luaOut), PairOpening(e.kind),
          PairQualifier(if e.attr != "" then e.attr else e.skill), PairClosing);
      } else {
        luaOut := luaOut + BareDescriptor(e.kind);
      }
    }

    /** Writes a record as an ingredient with no effects, and its effects as a Lua entry. */
    method WriteIngredient(r: Record)
      modifies this
      ensures yamlOut == old(yamlOut) + IngredientYaml(r)
      ensures luaOut == old(luaOut) + LuaEntry(r)
      ensures warnings == old(warnings) + FieldWarnings(r)
    {
      // YAML
      yamlOut := yamlOut + IngredientKey(r.id);
      yamlOut := yamlOut + IngredientType;
      WriteFields(r);
      yamlOut := yamlOut + NoEffects;
      WriteTail(r.tail);
      Append5(old(yamlOut), IngredientKey(r.id), IngredientType, FieldsText(r), NoEffects,
        TailText(r.tail));

      // Lua
      ghost var y, w := yamlOut, warnings;
      luaOut := luaOut + EntryHead(r.id);
      ghost var head := luaOut;
      for i := 0 to |r.effects|
        invariant luaOut == head + Descriptors(r.effects[..i])
        invariant yamlOut == y && warnings == w
      {
        ghost var before := luaOut;
        WriteDescriptor(r.effects[i]);
        DescriptorsStep(head, r.effects, i, before, luaOut);
      }
      luaOut := luaOut + EntryEnd;
      assert r.effects[..|r.effects|] == r.effects;
      Append3(old(luaOut), EntryHead(r.id), Descriptors(r.effects), EntryEnd);
    }

    /** Nulls out the ingredient and writes a potion with the fixed template in its place. */
    method WritePotion(r: Record)
      modifies this
      ensures yamlOut == old(yamlOut) + PotionYaml(r)
      ensures luaOut == old(luaOut)
      ensures warnings == old(warnings) + FieldWarnings(r)
    {
      yamlOut := yamlOut + NulledIngredientKey(r.id);
      yamlOut := yamlOut + PotionKey(r.id);
      yamlOut := yamlOut + PotionType;
      WriteFields(r);
      yamlOut := yamlOut + PotionTemplate;
      WriteTail(r.tail);
      Append6(old(yamlOut), NulledIngredientKey(r.id), PotionKey(r.id), PotionType, FieldsText(r),
        PotionTemplate, TailText(r.tail));
    }

    /** Writes one record as a potion or as an ingredient, as its effect types decide. */
    method WriteRecord(r: Record)
      modifies this
      ensures yamlOut == old(yamlOut) + YamlBlock(r)
      ensures luaOut == old(luaOut) + LuaBlock(r)
      ensures warnings == old(warnings) + FieldWarnings(r)
    {
      var potion := IsPotion(r.effects);
      PotionByTypes(r);
      if potion {
        WritePotion(r);
      } else {
        WriteIngredient(r);
      }
    }
  }

  /** Appending the descriptor of one more effect keeps an output equal to the descriptors so far. */
  lemma DescriptorsStep(head: string, effects: seq<Effect>, i: nat, before: string, after: string)
    requires i < |effects|
    requires before == head + Descriptors(effects[..i])
    requires after == before + Descriptor(effects[i])
    ensures after == head + Descriptors(effects[..i + 1])
  {
    var prefix := effects[..i];
    assert effects[..i + 1] == prefix + [effects[i]];
    DescriptorsSnoc(prefix, effects[i]);
    Append2(head, Descriptors(prefix), Descriptor(effects[i]));
  }

  /** Appending the block of one more record keeps an output equal to the joined blocks. */
  lemma JoinedStep<T>(start: seq<T>, rs: seq<Record>, i: nat, block: Record -> seq<T>,
                      before: seq<T>, after: seq<T>)
    requires i < |rs|
    requires before == start + Joined(rs[..i], block)
    requires after == before + block(rs[i])
    ensures after == start + Joined(rs[..i + 1], block)
  {
    assert rs[..i + 1] == rs[..i] + [rs[i]];
    JoinedSnoc(rs[..i], rs[i], block);
  }

  lemma Append2<T>(s: seq<T>, a: seq<T>, b: seq<T>)
    ensures s + a + b == s + (a + b)
  {
  }

  lemma Append3<T>(s: seq<T>, a: seq<T>, b: seq<T>, c: seq<T>)
    ensures s + a + b + c == s + (a + b + c)
  {
  }

  lemma Append5<T>(s: seq<T>, a: seq<T>, b: seq<T>, c: seq<T>, d: seq<T>, e: seq<T>)
    ensures s + a + b + c + d + e == s + (a + (b + (c + (d + e))))
    ensures s + a + b + c + d + e == s + (a + b + c + d + e)
  {
  }

  lemma Append6<T>(s: seq<T>, a: seq<T>, b: seq<T>, c: seq<T>, d: seq<T>, e: seq<T>, f: seq<T>)
    ensures s + a + b + c + d + e + f == s + (a + b + c + d + e + f)
  {
  }

  /** The five writes of the field writer are the fields in their fixed order. */
  lemma FieldsTextUnrolled(r: Record)
    ensures FieldsText(r) == FieldText(Name, r.name) + (FieldText(Model, r.model)
      + (FieldText(Icon, r.icon) + (FieldText(Weight, r.weight) + FieldText(Value, r.value))))
  {
    var f1 := FieldOrder[1..];
    var f2 := f1[1..];
    var f3 := f2[1..];
    var f4 := f3[1..];
    assert f4 == [Value] && f4[1..] == [];
    assert FieldTexts(r, f4) == FieldText(Value, r.value) + "";
    assert FieldTexts(r, f3) == FieldText(Weight, r.weight) + FieldTexts(r, f4);
    assert FieldTexts(r, f2) == FieldText(Icon, r.icon) + FieldTexts(r, f3);
    assert FieldTexts(r, f1) == FieldText(Model, r.model) + FieldTexts(r, f2);
    assert FieldTexts(r, FieldOrder) == FieldText(Name, r.name) + FieldTexts(r, f1);
  }

  /** The five checks of the field writer warn in the fixed field order. */
  lemma FieldWarningsUnrolled(r: Record)
    ensures FieldWarnings(r) == FieldWarning(r.id, Name, r.name) + (FieldWarning(r.id, Model, r.model)
      + (FieldWarning(r.id, Icon, r.icon) + (FieldWarning(r.id, Weight, r.weight)
      + FieldWarning(r.id, Value, r.value))))
  {
    var f1 := FieldOrder[1..];
    var f2 := f1[1..];
    var f3 := f2[1..];
    var f4 := f3[1..];
    assert f4 == [Value] && f4[1..] == [];
    assert FieldWarningsFor(r, f4) == FieldWarning(r.id, Value, r.value) + [];
    assert FieldWarningsFor(r, f3) == FieldWarning(r.id, Weight, r.weight) + FieldWarningsFor(r, f4);
    assert FieldWarningsFor(r, f2) == FieldWarning(r.id, Icon, r.icon) + FieldWarningsFor(r, f3);
    assert FieldWarningsFor(r, f1) == FieldWarning(r.id, Model, r.model) + FieldWarningsFor(r, f2);
    assert FieldWarningsFor(r, FieldOrder) == FieldWarning(r.id, Name, r.name) + FieldWarningsFor(r, f1);
  }

  /**
   * Converts the records that follow `header`: the YAML output is the header,
   * a newline and one block per record; the Lua output is a table with one
   * entry per ingredient that is not a potion.
   */
  method Run(header: string, records: seq<Record>) returns (yaml: string, lua: string, warnings: seq<string>)
    ensures yaml == YamlDocument(header, records)
    ensures lua == LuaDocument(records)
    ensures warnings == Warnings(records)
  {
    var out := new Emitter();
    out.yamlOut := out.yamlOut + header;
    out.yamlOut := out.yamlOut + "\n";
    out.luaOut := out.luaOut + LuaOpen;
    ghost var yamlStart := header + "\n";

    for i := 0 to |records|
      invariant out.yamlOut == yamlStart + YamlBody(records[..i])
      invariant out.luaOut == LuaOpen + LuaBody(records[..i])
      invariant out.warnings == Warnings(records[..i])
    {
      ghost var y, l, w := out.yamlOut, out.luaOut, out.warnings;
      out.WriteRecord(records[i]);
      JoinedStep(yamlStart, records, i, YamlBlock, y, out.yamlOut);
      JoinedStep(LuaOpen, records, i, LuaBlock, l, out.luaOut);
      JoinedStep([], records, i, FieldWarnings, w, out.warnings);
    }

    assert records[..|records|] == records;
    ghost var l := out.luaOut;
    out.luaOut := out.luaOut + LuaClose;
    assert out.luaOut == LuaDocument(records);
    yaml, lua, warnings := out.yamlOut, out.luaOut, out.warnings;
  }
}
