/**
 * A reader for the Lua table the converter writes. It is the partner of the
 * Lua emitter: reading back the emitted table gives, for every ingredient that
 * is not turned into a potion and in document order, its id and one
 * descriptor per effect, which is a bare effect type or an effect type paired
 * with its attribute (or, failing that, its skill).
 */
module LuaRead {
  import opened Records
  import opened Render

  datatype Descriptor = Bare(kind: string) | Paired(kind: string, qualifier: string)

  /** What the table should say about one effect. */
  function Described(e: Effect): Descriptor
  {
    if e.attr != "" then Paired(e.kind, e.attr)
    else if e.skill != "" then Paired(e.kind, e.skill)
    else Bare(e.kind)
  }

  function DescribedAll(effects: seq<Effect>): (ds: seq<Descriptor>)
    ensures |ds| == |effects|
  {
    if effects == [] then [] else [Described(effects[0])] + DescribedAll(effects[1..])
  }

  /** What the table should hold: the id and descriptors of each non-potion record, in order. */
  function Expected(rs: seq<Record>): seq<(string, seq<Descriptor>)>
  {
    if rs == [] then []
    else if IsPotionRecord(rs[0]) then Expected(rs[1..])
    else [(rs[0].id, DescribedAll(rs[0].effects))] + Expected(rs[1..])
  }

  /** Ids and effect strings as the scanner extracts them never hold a double quote. */
  predicate QuoteFree(s: string)
  {
    '"' !in s
  }

  predicate EffectQuoteFree(e: Effect)
  {
    QuoteFree(e.kind) && QuoteFree(e.attr) && QuoteFree(e.skill)
  }

  predicate RecordQuoteFree(r: Record)
  {
    QuoteFree(r.id) && forall e :: e in r.effects ==> EffectQuoteFree(e)
  }

  // ----------------------------------------------------------------- reader

  predicate StartsWith(s: string, p: string)
  {
    |p| <= |s| && s[..|p|] == p
  }

  /** Splits off the longest prefix without a double quote. */
  function ReadWord(s: string): (p: (string, string))
    ensures p.0 + p.1 == s
    ensures QuoteFree(p.0)
    ensures p.1 == [] || p.1[0] == '"'
  {
    if s == [] || s[0] == '"' then ([], s)
    else
      var (w, rest) := ReadWord(s[1..]);
      ([s[0]] + w, rest)
  }

  const BareOpen: string := "    \""
  const BareClose: string := "\",\n"
  const PairOpen: string := "    { \""
  const PairMiddle: string := "\" , \""
  const PairClose: string := "\" },\n"

  /** Reads one descriptor line, returning the descriptor and the text after it. */
  function ReadDescriptor(s: string): (r: Option<(Descriptor, string)>)
    ensures r.Some? ==> |r.value.1| < |s|
  {
    if StartsWith(s, BareOpen) then
      var (w, rest) := ReadWord(s[|BareOpen|..]);
      if StartsWith(rest, BareClose) then Some((Bare(w), rest[|BareClose|..])) else None
    else if StartsWith(s, PairOpen) then
      var (w, r1) := ReadWord(s[|PairOpen|..]);
      if StartsWith(r1, PairMiddle) then
        var (q, r2) := ReadWord(r1[|PairMiddle|..]);
        if StartsWith(r2, PairClose) then Some((Paired(w, q), r2[|PairClose|..])) else None
      else None
    else None
  }

  /** Reads descriptor lines for as long as there are any. */
  function ReadDescriptors(s: string): (r: (seq<Descriptor>, string))
    ensures |r.1| <= |s|
    decreases |s|
  {
    match ReadDescriptor(s)
    case None => ([], s)
    case Some((d, rest)) =>
      var (ds, tail) := ReadDescriptors(rest);
      ([d] + ds, tail)
  }

  const EntryOpen: string := "  [\""
  const EntryMiddle: string := "\"] = {\n"

  /** Reads table entries for as long as there are any. */
  function ReadEntries(s: string): (seq<(string, seq<Descriptor>)>, string)
    decreases |s|
  {
    if StartsWith(s, EntryOpen) then
      var (id, r1) := ReadWord(s[|EntryOpen|..]);
      if StartsWith(r1, EntryMiddle) then
        var (ds, r2) := ReadDescriptors(r1[|EntryMiddle|..]);
        if StartsWith(r2, EntryEnd) then
          var (es, r3) := ReadEntries(r2[|EntryEnd|..]);
          ([(id, ds)] + es, r3)
        else ([], s)
      else ([], s)
    else ([], s)
  }

  /** Reads a whole table document. */
  function ReadTable(s: string): Option<seq<(string, seq<Descriptor>)>>
  {
    if StartsWith(s, LuaOpen) then
      var (es, rest) := ReadEntries(s[|LuaOpen|..]);
      if rest == LuaClose then Some(es) else None
    else None
  }

  // --------------------------------------------------------------- lemmas

  lemma StartsWithAppend(p: string, s: string)
    ensures StartsWith(p + s, p) && (p + s)[|p|..] == s
  {
  }

  /** A quote-free word followed by a quote is read back exactly. */
  lemma {:induction false} ReadWordOf(w: string, rest: string)
    requires QuoteFree(w)
    requires rest == [] || rest[0] == '"'
    ensures ReadWord(w + rest) == (w, rest)
  {
    if w == [] {
      assert w + rest == rest;
    } else {
      assert (w + rest)[0] == w[0] && w[0] in w;
      assert (w + rest)[1..] == w[1..] + rest;
      assert QuoteFree(w[1..]) by {
        forall c | c in w[1..] ensures c in w { }
      }
      ReadWordOf(w[1..], rest);
      assert [w[0]] + w[1..] == w;
    }
  }

  /** A paired descriptor line is the reader's pair delimiters around the type and the qualifier. */
  lemma PairShape(k: string, q: string, t: string)
    ensures PairOpening(k) + PairQualifier(q) + PairClosing + t
         == PairOpen + (k + (PairMiddle + (q + (PairClose + t))))
  {
  }

  lemma BareShape(k: string, t: string)
    ensures BareDescriptor(k) + t == BareOpen + (k + (BareClose + t))
  {
  }

  /** A paired descriptor line is read as a pair. */
  lemma ReadPairOf(k: string, q: string, t: string)
    requires QuoteFree(k) && QuoteFree(q)
    ensures ReadDescriptor(PairOpen + (k + (PairMiddle + (q + (PairClose + t)))))
         == Some((Paired(k, q), t))
  {
    var s := PairOpen + (k + (PairMiddle + (q + (PairClose + t))));
    assert !StartsWith(s, BareOpen) by {
      assert s[4] == '{';
    }
    StartsWithAppend(PairOpen, k + (PairMiddle + (q + (PairClose + t))));
    ReadWordOf(k, PairMiddle + (q + (PairClose + t)));
    StartsWithAppend(PairMiddle, q + (PairClose + t));
    ReadWordOf(q, PairClose + t);
    StartsWithAppend(PairClose, t);
  }

  /** A bare descriptor line is read as a bare type. */
  lemma ReadBareOf(k: string, t: string)
    requires QuoteFree(k)
    ensures ReadDescriptor(BareOpen + (k + (BareClose + t))) == Some((Bare(k), t))
  {
    StartsWithAppend(BareOpen, k + (BareClose + t));
    ReadWordOf(k, BareClose + t);
    StartsWithAppend(BareClose, t);
  }

  /** Each descriptor line reads back as the descriptor its effect calls for. */
  lemma ReadDescriptorOf(e: Effect, t: string)
    requires EffectQuoteFree(e)
    ensures ReadDescriptor(Render.Descriptor(e) + t) == Some((Described(e), t))
  {
    if e.attr != "" || e.skill != "" {
      var q := if e.attr != "" then e.attr else e.skill;
      PairShape(e.kind, q, t);
      ReadPairOf(e.kind, q, t);
    } else {
      BareShape(e.kind, t);
      ReadBareOf(e.kind, t);
    }
  }

  /** The descriptor lines of an effect list read back as its descriptors, in order. */
  lemma {:induction false} ReadDescriptorsOf(effects: seq<Effect>, t: string)
    requires forall e :: e in effects ==> EffectQuoteFree(e)
    requires ReadDescriptor(t).None?
    ensures ReadDescriptors(Descriptors(effects) + t) == (DescribedAll(effects), t)
  {
    if effects != [] {
      var rest := Descriptors(effects[1..]) + t;
      assert Descriptors(effects) + t == Render.Descriptor(effects[0]) + rest;
      ReadDescriptorOf(effects[0], rest);
      ReadDescriptorsOf(effects[1..], t);
    } else {
      assert Descriptors(effects) + t == t;
    }
  }

  /** The end of an entry is not a descriptor line. */
  lemma EntryEndIsNoDescriptor(t: string)
    ensures ReadDescriptor(EntryEnd + t).None?
  {
    var s := EntryEnd + t;
    assert s[2] == '}';
  }

  lemma EntryShape(r: Record, t: string)
    ensures LuaEntry(r) + t
         == EntryOpen + (r.id + (EntryMiddle + (Descriptors(r.effects) + (EntryEnd + t))))
  {
    assert EntryHead(r.id) == EntryOpen + r.id + EntryMiddle;
    AppendAssoc5(EntryOpen, r.id, EntryMiddle, Descriptors(r.effects), EntryEnd, t);
  }

  lemma AppendAssoc5<T>(a: seq<T>, b: seq<T>, c: seq<T>, d: seq<T>, e: seq<T>, f: seq<T>)
    ensures a + b + c + d + e + f == a + (b + (c + (d + (e + f))))
  {
  }

  /** The head of an entry is read as its id, leaving the text after the head. */
  lemma ReadHeadOf(id: string, body: string)
    requires QuoteFree(id)
    ensures StartsWith(EntryOpen + (id + (EntryMiddle + body)), EntryOpen)
    ensures ReadWord((EntryOpen + (id + (EntryMiddle + body)))[|EntryOpen|..]) == (id, EntryMiddle + body)
    ensures StartsWith(EntryMiddle + body, EntryMiddle) && (EntryMiddle + body)[|EntryMiddle|..] == body
  {
    StartsWithAppend(EntryOpen, id + (EntryMiddle + body));
    ReadWordOf(id, EntryMiddle + body);
    StartsWithAppend(EntryMiddle, body);
  }

  /** One table entry reads back as the record's id and descriptors. */
  lemma ReadEntryOf(r: Record, t: string)
    requires RecordQuoteFree(r)
    ensures ReadEntries(LuaEntry(r) + t)
         == ([(r.id, DescribedAll(r.effects))] + ReadEntries(t).0, ReadEntries(t).1)
  {
    EntryShape(r, t);
    ReadHeadOf(r.id, Descriptors(r.effects) + (EntryEnd + t));
    EntryEndIsNoDescriptor(t);
    ReadDescriptorsOf(r.effects, EntryEnd + t);
    StartsWithAppend(EntryEnd, t);
  }

  /** What one record should contribute to the table: nothing for a potion, else its entry. */
  function EntryOf(r: Record): seq<(string, seq<Descriptor>)>
  {
    if IsPotionRecord(r) then [] else [(r.id, DescribedAll(r.effects))]
  }

  lemma ExpectedCons(rs: seq<Record>)
    requires rs != []
    ensures Expected(rs) == EntryOf(rs[0]) + Expected(rs[1..])
  {
  }

  lemma LuaBodyCons(rs: seq<Record>)
    requires rs != []
    ensures LuaBody(rs) + LuaClose == LuaBlock(rs[0]) + (LuaBody(rs[1..]) + LuaClose)
  {
  }

  /** The Lua block of one record reads back as what it should contribute. */
  lemma ReadBlockOf(r: Record, t: string)
    requires RecordQuoteFree(r)
    ensures ReadEntries(LuaBlock(r) + t) == (EntryOf(r) + ReadEntries(t).0, ReadEntries(t).1)
  {
    if IsPotionRecord(r) {
      assert LuaBlock(r) + t == t;
      assert EntryOf(r) + ReadEntries(t).0 == ReadEntries(t).0;
    } else {
      ReadEntryOf(r, t);
    }
  }

  /** The table body reads back as the expected entries, up to the closing brace. */
  lemma {:induction false} ReadBodyOf(rs: seq<Record>)
    requires forall r :: r in rs ==> RecordQuoteFree(r)
    ensures ReadEntries(LuaBody(rs) + LuaClose) == (Expected(rs), LuaClose)
  {
    if rs == [] {
      assert LuaBody(rs) + LuaClose == LuaClose;
      assert !StartsWith(LuaClose, EntryOpen);
    } else {
      assert rs[0] in rs;
      ReadBodyOf(rs[1..]);
      LuaBodyCons(rs);
      ReadBlockOf(rs[0], LuaBody(rs[1..]) + LuaClose);
      ExpectedCons(rs);
    }
  }

  /**
   * Round trip of the Lua output: the emitted table holds exactly one entry per
   * record that is not a potion, in document order, keyed by the record id,
   * with one descriptor per effect in effect order.
   */
  lemma ReadTableOfDocument(rs: seq<Record>)
    requires forall r :: r in rs ==> RecordQuoteFree(r)
    ensures ReadTable(LuaDocument(rs)) == Some(Expected(rs))
  {
    ReadBodyOf(rs);
    assert LuaDocument(rs) == LuaOpen + (LuaBody(rs) + LuaClose);
    StartsWithAppend(LuaOpen, LuaBody(rs) + LuaClose);
  }

  function PotionsOf(rs: seq<Record>): seq<Record>
  {
    if rs == [] then []
    else if IsPotionRecord(rs[0]) then [rs[0]] + PotionsOf(rs[1..])
    else PotionsOf(rs[1..])
  }

  /** Every record is either a table entry or a potion, never both. */
  lemma {:induction false} ExpectedCount(rs: seq<Record>)
    ensures |Expected(rs)| + |PotionsOf(rs)| == |rs|
  {
    if rs != [] {
      ExpectedCount(rs[1..]);
    }
  }
}
