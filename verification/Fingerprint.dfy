/** The field encoding of a run fingerprint: what is fed to the hash, and why no two parameter lists
    feed it the same bytes. */
module Fingerprint {
  import opened Domain

  type Byte = b: nat | b < 256
  type Bytes = seq<Byte>

  const COLON: Byte := 58

  /** `n` in decimal ASCII. */
  function Decimal(n: nat): (r: Bytes)
    ensures r != []
    ensures forall i | 0 <= i < |r| :: IsDigit(r[i])
  {
    if n < 10 then [48 + n] else Decimal(n / 10) + [48 + n % 10]
  }

  predicate IsDigit(b: Byte) {
    48 <= b <= 57
  }

  /** One length-prefixed field. */
  function Field(bytes: Bytes): Bytes {
    Decimal(|bytes|) + [COLON] + bytes
  }

  datatype Param = Param(key: Bytes, value: Bytes)

  function Encode(kind: Bytes, parts: seq<Param>): Bytes {
    if parts == [] then Field(kind)
    else Encode(kind, parts[..|parts| - 1]) + Field(parts[|parts| - 1].key) + Field(parts[|parts| - 1].value)
  }

  /** The hasher as far as the encoding goes: it is fed a stream of bytes. */
  class Hasher {
    var fed: Bytes

    constructor ()
      ensures fed == []
    {
      fed := [];
    }

    method Update(bytes: Bytes)
      modifies this
      ensures fed == old(fed) + bytes
    {
      fed := fed + bytes;
    }

    method FeedField(bytes: Bytes)
      modifies this
      ensures fed == old(fed) + Field(bytes)
    {
      Update(Decimal(|bytes|));
      Update([COLON]);
      Update(bytes);
      assert fed == old(fed) + Field(bytes);
    }
  }

  /** Feeds the kind, then every key and value in order. */
  method RunFingerprint(kind: Bytes, parts: seq<Param>) returns (fed: Bytes)
    ensures fed == Encode(kind, parts)
  {
    var hasher := new Hasher();
    hasher.FeedField(kind);
    for i := 0 to |parts|
      invariant hasher.fed == Encode(kind, parts[..i])
    {
      assert parts[..i + 1][..i] == parts[..i];
      hasher.FeedField(parts[i].key);
      hasher.FeedField(parts[i].value);
    }
    assert parts[..|parts|] == parts;
    fed := hasher.fed;
  }

  // ----- Decoding -----

  /** The number of digits that lead the stream. */
  function Digits(s: Bytes): (n: nat)
    ensures n <= |s|
    ensures forall i | 0 <= i < n :: IsDigit(s[i])
    ensures n < |s| ==> !IsDigit(s[n])
  {
    if s == [] || !IsDigit(s[0]) then 0 else 1 + Digits(s[1..])
  }

  function Value(digits: Bytes): nat
    requires forall i | 0 <= i < |digits| :: IsDigit(digits[i])
  {
    if digits == [] then 0
    else
      var last := |digits| - 1;
      assert IsDigit(digits[last]);
      10 * Value(digits[..last]) + (digits[last] - 48)
  }

  /** The first field of a stream and what follows it. */
  function TakeField(s: Bytes): (r: Option<(Bytes, Bytes)>)
    ensures r.Some? ==> |r.value.1| < |s|
  {
    var n := Digits(s);
    if n == |s| || s[n] != COLON then None
    else
      var length := Value(s[..n]);
      if n + 1 + length > |s| then None
      else Some((s[n + 1..n + 1 + length], s[n + 1 + length..]))
  }

  function Fields(s: Bytes): Option<seq<Bytes>>
    decreases |s|
  {
    if s == [] then Some([])
    else
      match TakeField(s)
      case None => None
      case Some((field, rest)) =>
        match Fields(rest)
        case None => None
        case Some(more) => Some([field] + more)
  }

  function Pairs(fields: seq<Bytes>): seq<Param>
    requires |fields| % 2 == 0
  {
    if fields == [] then [] else [Param(fields[0], fields[1])] + Pairs(fields[2..])
  }

  function Decode(s: Bytes): Option<(Bytes, seq<Param>)> {
    match Fields(s)
    case None => None
    case Some(fields) => if |fields| % 2 == 1 then Some((fields[0], Pairs(fields[1..]))) else None
  }

  lemma {:induction false} ValueOfDecimal(n: nat)
    ensures Value(Decimal(n)) == n
  {
    if n < 10 {
      assert Decimal(n)[..0] == [];
    } else {
      ValueOfDecimal(n / 10);
      assert Decimal(n)[..|Decimal(n)| - 1] == Decimal(n / 10);
    }
  }

  /** A field is the length of its bytes in decimal, a colon, and the bytes. */
  lemma FieldMeaning(bytes: Bytes, digits: nat)
    requires digits == |Field(bytes)| - |bytes| - 1
    ensures digits > 0 && Field(bytes)[digits] == COLON && Field(bytes)[digits + 1..] == bytes
    ensures forall i | 0 <= i < digits :: IsDigit(Field(bytes)[i])
    ensures Value(Field(bytes)[..digits]) == |bytes|
  {
    ValueOfDecimal(|bytes|);
    assert Field(bytes)[..digits] == Decimal(|bytes|);
    assert forall i | 0 <= i < digits :: Field(bytes)[i] == Decimal(|bytes|)[i];
  }

  /** The kind is fed first, then the parameters in order, each key before its value. */
  lemma {:induction false} FieldsInOrder(kind: Bytes, parts: seq<Param>, i: nat)
    requires i < |parts|
    ensures Encode(kind, []) == Field(kind)
    ensures Encode(kind, parts[..i]) + Field(parts[i].key) + Field(parts[i].value) <= Encode(kind, parts)
    ensures |parts| == i + 1 ==> Encode(kind, parts[..i]) + Field(parts[i].key) + Field(parts[i].value) == Encode(kind, parts)
  {
    if i < |parts| - 1 {
      FieldsInOrder(kind, parts[..|parts| - 1], i);
      assert parts[..|parts| - 1][..i] == parts[..i];
    }
  }

  lemma {:induction false} DigitsThenColon(d: Bytes, rest: Bytes)
    requires forall i | 0 <= i < |d| :: IsDigit(d[i])
    ensures Digits(d + [COLON] + rest) == |d|
  {
    if d != [] {
      DigitsThenColon(d[1..], rest);
      assert (d + [COLON] + rest)[1..] == d[1..] + [COLON] + rest;
    }
  }

  /** A field is read back whole, whatever bytes it holds and whatever follows. */
  lemma TakeFieldUndoesField(field: Bytes, rest: Bytes)
    ensures TakeField(Field(field) + rest) == Some((field, rest))
  {
    var d := Decimal(|field|);
    var s := Field(field) + rest;
    assert s == d + [COLON] + (field + rest);
    DigitsThenColon(d, field + rest);
    ValueOfDecimal(|field|);
    assert s[..|d|] == d;
    assert s[|d| + 1..] == field + rest;
    assert s[|d| + 1..|d| + 1 + |field|] == field;
  }

  /** The fields of an encoding, in order. */
  function FieldList(kind: Bytes, parts: seq<Param>): seq<Bytes> {
    if parts == [] then [kind]
    else FieldList(kind, parts[..|parts| - 1]) + [parts[|parts| - 1].key, parts[|parts| - 1].value]
  }

  function Concat(fields: seq<Bytes>): Bytes {
    if fields == [] then [] else Concat(fields[..|fields| - 1]) + Field(fields[|fields| - 1])
  }

  lemma {:induction false} EncodeIsConcat(kind: Bytes, parts: seq<Param>)
    ensures Encode(kind, parts) == Concat(FieldList(kind, parts))
  {
    if parts == [] {
      assert Concat([kind]) == Concat([kind][..0]) + Field(kind);
    } else {
      EncodeIsConcat(kind, parts[..|parts| - 1]);
      var before := FieldList(kind, parts[..|parts| - 1]);
      var k, v := parts[|parts| - 1].key, parts[|parts| - 1].value;
      assert (before + [k, v])[..|before| + 1] == before + [k];
      assert (before + [k])[..|before|] == before;
    }
  }

  lemma {:induction false} ConcatFront(fields: seq<Bytes>)
    requires fields != []
    ensures Concat(fields) == Field(fields[0]) + Concat(fields[1..])
  {
    hide Field;
    if |fields| > 1 {
      var init, last := fields[..|fields| - 1], fields[|fields| - 1];
      ConcatFront(init);
      assert fields[1..] == init[1..] + [last] && fields[1..][..|fields| - 2] == init[1..];
      assert Concat(fields[1..]) == Concat(init[1..]) + Field(last);
    } else {
      assert fields[..0] == [] && fields[1..] == [];
    }
  }

  lemma {:induction false} FieldsUndoesConcat(fields: seq<Bytes>)
    ensures Fields(Concat(fields)) == Some(fields)
  {
    if fields != [] {
      ConcatFront(fields);
      TakeFieldUndoesField(fields[0], Concat(fields[1..]));
      FieldsUndoesConcat(fields[1..]);
      assert fields == [fields[0]] + fields[1..];
    }
  }

  lemma {:induction false} PairsAppend(fields: seq<Bytes>, k: Bytes, v: Bytes)
    requires |fields| % 2 == 0
    ensures Pairs(fields + [k, v]) == Pairs(fields) + [Param(k, v)]
  {
    if fields != [] {
      PairsAppend(fields[2..], k, v);
      assert (fields + [k, v])[2..] == fields[2..] + [k, v];
    } else {
      assert [k, v][2..] == [];
    }
  }

  lemma {:induction false} FieldListShape(kind: Bytes, parts: seq<Param>)
    ensures var f := FieldList(kind, parts);
            |f| == 1 + 2 * |parts| && f[0] == kind && Pairs(f[1..]) == parts
  {
    if parts != [] {
      var init, last := parts[..|parts| - 1], parts[|parts| - 1];
      FieldListShape(kind, init);
      PairsAppend(FieldList(kind, init)[1..], last.key, last.value);
      assert FieldList(kind, parts)[1..] == FieldList(kind, init)[1..] + [last.key, last.value];
      assert parts == init + [last];
    }
  }

  /** The stream decodes back to the kind and the ordered parameters, for arbitrary bytes. */
  lemma DecodeUndoesEncode(kind: Bytes, parts: seq<Param>)
    ensures Decode(Encode(kind, parts)) == Some((kind, parts))
  {
    hide Encode, Concat, Fields, FieldList, Pairs;
    EncodeIsConcat(kind, parts);
    FieldsUndoesConcat(FieldList(kind, parts));
    FieldListShape(kind, parts);
  }

  /** Two runs that feed the hash the same bytes have the same kind and parameters. */
  lemma EncodingIsInjective(kind: Bytes, parts: seq<Param>, kind': Bytes, parts': seq<Param>)
    requires Encode(kind, parts) == Encode(kind', parts')
    ensures kind == kind' && parts == parts'
  {
    DecodeUndoesEncode(kind, parts);
    DecodeUndoesEncode(kind', parts');
  }

  // ----- The one value that is joined before it is encoded -----

  const COMMA: Byte := 44

  /** The indicator list as it becomes one value: absent is empty, otherwise comma-joined. */
  function Join(names: seq<Bytes>): Bytes {
    if names == [] then [] else if |names| == 1 then names[0]
    else Join(names[..|names| - 1]) + [COMMA] + names[|names| - 1]
  }

  function IndicatorValue(subset: Option<seq<Bytes>>): Bytes {
    if subset.Some? then Join(subset.value) else []
  }

  /** Splitting at commas: the only list of comma-free names a joined value can be read back as. */
  function Split(s: Bytes): (r: seq<Bytes>)
    ensures r != [] && forall i | 0 <= i < |r| :: COMMA !in r[i]
  {
    if s == [] then [[]] else WithByte(Split(s[..|s| - 1]), s[|s| - 1])
  }

  function WithByte(names: seq<Bytes>, b: Byte): seq<Bytes>
    requires names != []
  {
    if b == COMMA then names + [[]] else names[..|names| - 1] + [names[|names| - 1] + [b]]
  }

  lemma SplitOneMore(s: Bytes, b: Byte)
    ensures Split(s + [b]) == WithByte(Split(s), b)
  {
    assert (s + [b])[..|s|] == s;
  }

  lemma WithByteAfter(a: seq<Bytes>, b: seq<Bytes>, x: Byte)
    requires b != []
    ensures WithByte(a + b, x) == a + WithByte(b, x)
  {
  }

  lemma LastByteApart(u: Bytes, t: Bytes)
    requires t != []
    ensures u + t == (u + t[..|t| - 1]) + [t[|t| - 1]] && t == t[..|t| - 1] + [t[|t| - 1]]
  {
  }

  /** A comma separates what is before it from what is after it, whatever either holds. */
  lemma {:induction false} SplitAtComma(s: Bytes, t: Bytes)
    ensures Split(s + [COMMA] + t) == Split(s) + Split(t)
  {
    var u := s + [COMMA];
    if t == [] {
      SplitOneMore(s, COMMA);
      assert u + t == u;
    } else {
      hide Split, WithByte;
      var init, last := t[..|t| - 1], t[|t| - 1];
      SplitAtComma(s, init);
      LastByteApart(u, t);
      SplitOneMore(u + init, last);
      SplitOneMore(init, last);
      WithByteAfter(Split(s), Split(init), last);
    }
  }

  lemma {:induction false} SplitOfPlain(name: Bytes)
    requires COMMA !in name
    ensures Split(name) == [name]
  {
    if name != [] {
      SplitOfPlain(name[..|name| - 1]);
      assert name == name[..|name| - 1] + [name[|name| - 1]];
    }
  }

  lemma {:induction false} SplitUndoesJoin(names: seq<Bytes>)
    requires names != [] && forall i | 0 <= i < |names| :: COMMA !in names[i]
    ensures Split(Join(names)) == names
  {
    if |names| == 1 {
      SplitOfPlain(names[0]);
    } else {
      SplitUndoesJoin(names[..|names| - 1]);
      SplitAtComma(Join(names[..|names| - 1]), names[|names| - 1]);
      SplitOfPlain(names[|names| - 1]);
      assert names == names[..|names| - 1] + [names[|names| - 1]];
    }
  }

  /** The joined value can be read back exactly when the list is not empty and no name has a comma. */
  lemma JoinReadsBackIff(names: seq<Bytes>)
    ensures Split(Join(names)) == names <==> names != [] && forall i | 0 <= i < |names| :: COMMA !in names[i]
  {
    if names != [] && forall i | 0 <= i < |names| :: COMMA !in names[i] {
      SplitUndoesJoin(names);
    }
  }

  /** Joining undoes splitting: no byte is lost. */
  lemma {:induction false} JoinUndoesSplit(s: Bytes)
    ensures s == Join(Split(s))
  {
    if s != [] {
      var init, last := s[..|s| - 1], s[|s| - 1];
      var before := Split(init);
      JoinUndoesSplit(init);
      assert s == init + [last];
      if last == COMMA {
        assert (before + [[]])[..|before|] == before;
      } else {
        JoinWithLast(before[..|before| - 1], before[|before| - 1], last);
      }
    }
  }

  lemma JoinWithLast(names: seq<Bytes>, name: Bytes, last: Byte)
    ensures Join(names + [name + [last]]) == Join(names + [name]) + [last]
  {
    assert (names + [name + [last]])[..|names|] == names == (names + [name])[..|names|];
  }

  /** The names a subset's value consists of, once commas inside names are read as separators; an absent or
      empty list is one empty name. */
  function AtomsOf(subset: Option<seq<Bytes>>): seq<Bytes> {
    if subset.None? || subset.value == [] then [[]] else AllSplit(subset.value)
  }

  function AllSplit(names: seq<Bytes>): seq<Bytes> {
    if names == [] then [] else AllSplit(names[..|names| - 1]) + Split(names[|names| - 1])
  }

  lemma {:induction false} SplitOfJoin(names: seq<Bytes>)
    requires names != []
    ensures Split(Join(names)) == AllSplit(names)
  {
    var init, last := names[..|names| - 1], names[|names| - 1];
    if init == [] {
      assert AllSplit(init) == [];
    } else {
      SplitOfJoin(init);
      SplitAtComma(Join(init), last);
    }
  }

  lemma SplitOfValue(subset: Option<seq<Bytes>>)
    ensures Split(IndicatorValue(subset)) == AtomsOf(subset) && IndicatorValue(subset) == Join(AtomsOf(subset))
  {
    if subset.Some? && subset.value != [] {
      SplitOfJoin(subset.value);
    }
    JoinUndoesSplit(IndicatorValue(subset));
  }

  /** Two runs that differ in the indicator subset alone reach the hash as the same bytes exactly when the
      subsets have the same atoms. */
  lemma SubsetsCollideIff(
      kind: Bytes, before: seq<Param>, key: Bytes, after: seq<Param>, s: Option<seq<Bytes>>, t: Option<seq<Bytes>>)
    ensures Encode(kind, before + [Param(key, IndicatorValue(s))] + after)
            == Encode(kind, before + [Param(key, IndicatorValue(t))] + after)
            <==> AtomsOf(s) == AtomsOf(t)
  {
    SplitOfValue(s);
    SplitOfValue(t);
    var a := before + [Param(key, IndicatorValue(s))] + after;
    var b := before + [Param(key, IndicatorValue(t))] + after;
    assert a[|before|].value == IndicatorValue(s) && b[|before|].value == IndicatorValue(t);
    if Encode(kind, a) == Encode(kind, b) {
      EncodingIsInjective(kind, a, kind, b);
    }
  }

  /** An absent subset, or a non-empty list of non-empty names without a comma. */
  predicate Plain(subset: Option<seq<Bytes>>) {
    subset.Some? ==>
      subset.value != [] && forall i | 0 <= i < |subset.value| :: subset.value[i] != [] && COMMA !in subset.value[i]
  }

  /** Among those, distinct subsets never collide. */
  lemma PlainSubsetsNeverCollide(s: Option<seq<Bytes>>, t: Option<seq<Bytes>>)
    requires Plain(s) && Plain(t) && AtomsOf(s) == AtomsOf(t)
    ensures s == t
  {
    if s.Some? {
      AllSplitOfPlain(s.value);
    }
    if t.Some? {
      AllSplitOfPlain(t.value);
    }
  }

  lemma {:induction false} AllSplitOfPlain(names: seq<Bytes>)
    requires forall i | 0 <= i < |names| :: COMMA !in names[i]
    ensures AllSplit(names) == names
  {
    if names != [] {
      AllSplitOfPlain(names[..|names| - 1]);
      SplitOfPlain(names[|names| - 1]);
      assert names == names[..|names| - 1] + [names[|names| - 1]];
    }
  }

  /** So distinct indicator subsets can reach the hash as the same bytes: ["a,b"] and ["a", "b"], and an
      absent subset and one empty name. */
  lemma IndicatorSubsetsCanCollide()
    ensures IndicatorValue(Some([[97, COMMA, 98]])) == IndicatorValue(Some([[97], [98]]))
    ensures IndicatorValue(None) == IndicatorValue(Some([])) == IndicatorValue(Some([[]]))
  {
    var names: seq<Bytes> := [[97], [98]];
    assert names[..1] == [[97]];
    assert Join(names) == [97, COMMA, 98];
  }
}
