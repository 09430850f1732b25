# Alchemistry converter, modelled in Dafny

`scripts/alchemistry.py` reads the YAML dump of a game plugin's ingredient records and writes two outputs:

- A rewritten YAML record set. Every ingredient keeps its header fields and loses its effects (`effects: []`). An ingredient whose only effect is `RestoreFatigue` is instead nulled out and replaced by a `Potion::` record built from a fixed template.
- A Lua table. It has one entry per ingredient that did not become a potion. The entry lists one descriptor per effect: the effect type alone, or the type paired with its attribute (or, failing that, its skill).

The model takes each record as already split into its parts:

- an id;
- five optional header fields (`name`, `model`, `icon`, `weight`, `value`);
- the ordered effects, each a type with an optional attribute and skill (an empty string means absent);
- an optional verbatim tail block (the empty string means absent).

Everything downstream of that split is modelled. The files are:

- `records.dfy`: the record, effect and field datatypes, and the fixed field order.
- `paths.dfy`: the normalisation of `model` and `icon` paths. It lower-cases the value and turns each escaped backslash pair into `/`, scanning left to right. Proved here: the result has no upper-case letter and no backslash pair, normalising twice equals normalising once, and an escaped separator becomes one slash.
- `render.dfy`: the exact text each writer appends, as pure functions. This covers field lines, warnings, the ingredient and potion YAML blocks, the Lua entry and descriptors, the potion rule and both framed documents.
- `lua_read.dfy`: a reader for the Lua table, the partner of the Lua writer. Reading back the emitted table yields exactly the non-potion records, in document order, each with its id and one descriptor per effect.
- `alchemistry.dfy`:
  - the classifier `IsPotion`, a loop with a flag and early exit;
  - the class `Emitter`, whose fields are the two output buffers and the warning list, with one append-only method per writer of the script;
  - the driver `Run`, which frames both outputs and dispatches every record to exactly one writer.

  Each method is proved to append exactly the text of the matching function in `render.dfy`, and to leave the other buffers unchanged.

## Model

| member | source | states |
|---|---|---|
| Alchemistry.IsPotion | scripts/alchemistry.py:113-120 | true exactly when the effect types are the one-element sequence `["RestoreFatigue"]`; no effects, two `RestoreFatigue`s or any other type give false |
| Render.PotionByTypes | scripts/alchemistry.py:112-120 | the structural potion rule used by the documents (one effect, of type `RestoreFatigue`) agrees with the classifier's condition on the type sequence |
| Paths.NormalizePathClean | scripts/alchemistry.py:41 | a normalised path contains no ASCII upper-case letter and no two adjacent backslashes |
| Paths.NormalizePathIdempotent | scripts/alchemistry.py:41 | normalising a normalised path changes nothing |
| Paths.ReplacePairsNoPair | scripts/alchemistry.py:41 | after replacing backslash pairs left to right, no two backslashes are adjacent, even where the input had an odd run |
| Paths.ReplacePairsFixes | scripts/alchemistry.py:41 | a string without a backslash pair is left unchanged by the replacement |
| Paths.NormalizeSeparator | scripts/alchemistry.py:41 | a directory followed by an escaped separator and the rest becomes the lower-cased directory, one `/`, and the normalised rest |
| Paths.NormalizePathExample | scripts/alchemistry.py:41 | `Meshes` + escaped separator + `Item.NIF` becomes `meshes/item.nif` |
| Paths.NormalizePathOddRun | scripts/alchemistry.py:41 | a lone backslash is kept; of three in a row only the first two become a slash |
| Render.FieldTextStable | scripts/alchemistry.py:40-43 | name, weight and value are written verbatim; model and icon are written normalised; writing an already written value gives the same line |
| Render.WarningNames | scripts/alchemistry.py:37 | the warning for a missing field holds the record id right after `Warning: ingredient ` and ends with the field name |
| Render.FieldsInOrder | scripts/alchemistry.py:33-49 | the field writer emits exactly the lines of the present fields and exactly one warning per missing field, both in field order; every field is present or missing, never both |
| Alchemistry.Emitter.WriteHeaderValue | scripts/alchemistry.py:34-43 | appends `    <field>: <value>\n` with the value normalised for paths, or appends the warning and writes nothing to the YAML; the Lua buffer is unchanged |
| Alchemistry.Emitter.WriteFields | scripts/alchemistry.py:45-49 | appends the field lines and the warnings in the order name, model, icon, weight, value; the Lua buffer is unchanged |
| Alchemistry.Emitter.WriteTail | scripts/alchemistry.py:64-66 | appends the tail and exactly one newline when the tail is non-empty, and nothing otherwise |
| Render.TailPassesThrough | scripts/alchemistry.py:107-109 | a record's YAML block is its block without the tail, followed by the tail and one newline when there is one; the Lua block does not depend on the tail |
| Alchemistry.Emitter.WriteDescriptor | scripts/alchemistry.py:72-81 | appends `    "<type>",\n` for an effect without qualifier and `    { "<type>" , "<q>" },\n` otherwise, the attribute winning over the skill |
| Render.DescriptorsSnoc | scripts/alchemistry.py:71-81 | one more effect adds exactly its descriptor line at the end, so descriptors follow effect order |
| Alchemistry.Emitter.WriteIngredient | scripts/alchemistry.py:53-83 | appends the ingredient key, `type: Ingredient`, the field lines, `effects: []` and the tail to the YAML, and the entry head, one descriptor per effect in order and the entry end to the Lua; warnings grow by the missing fields |
| Alchemistry.Emitter.WritePotion | scripts/alchemistry.py:87-109 | appends the nulled ingredient key, the potion key, `type: Potion`, the field lines, the fixed RestoreFatigue template and the tail to the YAML; the Lua buffer is unchanged |
| Alchemistry.Emitter.WriteRecord | scripts/alchemistry.py:141-144 | a record goes to exactly one writer: its potion block and no Lua entry when it is a potion, its ingredient block and Lua entry otherwise |
| Alchemistry.Run | scripts/alchemistry.py:127-149 | the YAML output is the header, a newline and every record's block in document order; the Lua output is `return {\n`, the entries of the non-potion records in document order, and `}\n`; the warnings are every record's in order |
| Render.JoinedSnoc | scripts/alchemistry.py:140-144 | handling one more record appends exactly that record's block to each output |
| LuaRead.ReadDescriptorOf | scripts/alchemistry.py:71-81 | every descriptor line reads back as the effect's type, paired with its attribute, else its skill, else alone |
| LuaRead.ReadEntryOf | scripts/alchemistry.py:69-83 | an entry reads back as the record id and one descriptor per effect, in effect order |
| LuaRead.ReadBodyOf | scripts/alchemistry.py:140-144 | the entries of a record list read back as the ids and descriptors of its non-potion records, in order |
| LuaRead.ReadTableOfDocument | scripts/alchemistry.py:132-148 | the whole Lua document reads back as a table whose entries are exactly the non-potion records, in document order |
| LuaRead.ExpectedCount | scripts/alchemistry.py:140-144 | the number of table entries plus the number of potions equals the number of records |

## Left out

- Argument parsing, and the opening, reading, buffering and closing of files, are not modelled. The two outputs are string fields of `Emitter`, and the header is a parameter of `Run`.
- The regular expressions are not modelled: the header search, the five field patterns, the effect patterns and the record scanner. Records arrive already split into their groups. The classifier and the Lua writer scan the effects text with two different patterns. Both patterns begin alike, and neither optional qualifier group can swallow an `- effect:` line, so the model gives both the same effect list.
- Printed warnings are kept as a list of message texts, without the console and the trailing newline.
- The failure path for an unparsable header is not modelled. Line 18 only prints a message, and line 128 would then fail on the missing match, so the header is taken as a given string.
- Paths.Lower: lower-cases ASCII letters only. Python's `lower()` also folds non-ASCII letters. Paths are expected to be ASCII.
- LuaRead.ReadTableOfDocument: the round trip requires that no id, effect type, attribute or skill contains a double quote. The record scanner matches ids by `[^"]+` and effect words by `\w+`, so real input always meets this. The Lua writer itself escapes nothing.
- The numeric meaning of `weight` and `value` is not modelled. Both are copied as text.
