/** The body of an SSH certificate: how it is built, and a decoder that accepts exactly what is built. */
module SshCertificate {
  import opened Prelude
  import opened SshWire

  // ----- a run of strings -----

  function PackStrings(strings: seq<Bytes>): Option<Bytes> {
    if strings == [] then Some([])
    else
      var front :- PackStrings(strings[..|strings| - 1]);
      var last :- PackString(strings[|strings| - 1]);
      Some(front + last)
  }

  function UnpackStrings(input: Bytes): Option<seq<Bytes>>
    decreases |input|
  {
    if input == [] then Some([])
    else
      var Parsed(first, rest) :- UnpackString(input);
      var others :- UnpackStrings(rest);
      Some([first] + others)
  }

  lemma {:induction false} PackStringsCons(first: Bytes, others: seq<Bytes>)
    ensures PackStrings([first] + others) ==
            if PackString(first).Some? && PackStrings(others).Some?
            then Some(PackString(first).value + PackStrings(others).value) else None
  {
    var all := [first] + others;
    if others == [] {
      assert all[..|all| - 1] == [];
      assert PackString(first).Some? ==> [] + PackString(first).value == PackString(first).value + [];
    } else {
      var front, last := others[..|others| - 1], others[|others| - 1];
      PackStringsCons(first, front);
      assert all[..|all| - 1] == [first] + front && all[|all| - 1] == last;
      if PackString(first).Some? && PackStrings(others).Some? {
        Regroup(PackString(first).value, PackStrings(front).value, PackString(last).value);
      }
    }
  }

  lemma {:induction false} PackStringsPrefix(strings: seq<Bytes>, n: nat)
    requires n <= |strings| && PackStrings(strings[..n]).None?
    ensures PackStrings(strings).None?
  {
    if n == |strings| {
      assert strings[..n] == strings;
    } else {
      assert strings[..|strings| - 1][..n] == strings[..n];
      PackStringsPrefix(strings[..|strings| - 1], n);
    }
  }

  /** Unpacking a run of strings inverts packing it, and accepts nothing else. */
  lemma {:induction false} StringsIffPacked(input: Bytes, strings: seq<Bytes>)
    ensures UnpackStrings(input) == Some(strings) <==> PackStrings(strings) == Some(input)
    decreases |input|
  {
    if strings == [] {
      assert UnpackStrings(input) == Some([]) ==> input == [];
    } else if input != [] {
      var first, others := strings[0], strings[1..];
      assert strings == [first] + others;
      PackStringsCons(first, others);
      if PackStrings(strings) == Some(input) {
        StringIffPacked(input, first, PackStrings(others).value);
        StringsIffPacked(PackStrings(others).value, others);
      }
      if UnpackStrings(input) == Some(strings) {
        var rest := UnpackString(input).value.rest;
        StringIffPacked(input, first, rest);
        StringsIffPacked(rest, others);
      }
    } else {
      var first, others := strings[0], strings[1..];
      assert strings == [first] + others;
      PackStringsCons(first, others);
    }
  }

  /** A run packs exactly when every string fits, and its size is four bytes a string more than its content. */
  function PackedSize(strings: seq<Bytes>): nat {
    if strings == [] then 0 else PackedSize(strings[..|strings| - 1]) + 4 + |strings[|strings| - 1]|
  }

  lemma {:induction false} StringsFit(strings: seq<Bytes>)
    ensures PackStrings(strings).Some? <==> forall s | s in strings :: |s| < LIMIT32
    ensures PackStrings(strings).Some? ==> |PackStrings(strings).value| == PackedSize(strings)
  {
    if strings == [] {
    } else {
      var front, last := strings[..|strings| - 1], strings[|strings| - 1];
      assert strings == front + [last];
      StringsFit(front);
      Powers();
      if |last| < LIMIT32 {
        EncodedValue(|last|, 4);
      }
    }
  }

  // ----- options: key and value strings alternate -----

  datatype Entry = Entry(key: Bytes, value: Bytes)

  function Flatten(entries: seq<Entry>): seq<Bytes> {
    seq(2 * |entries|, i requires 0 <= i < 2 * |entries| =>
      if i % 2 == 0 then entries[i / 2].key else entries[i / 2].value)
  }

  function Pair(strings: seq<Bytes>): Option<seq<Entry>> {
    if |strings| % 2 != 0 then None
    else
      Some(seq(|strings| / 2, i requires 0 <= i < |strings| / 2 => Entry(strings[2 * i], strings[2 * i + 1])))
  }

  /** The key of an entry comes before its value, and entries keep their order. */
  lemma EntryOrder(entries: seq<Entry>, e: Entry)
    ensures Flatten([]) == [] && Flatten(entries + [e]) == Flatten(entries) + [e.key, e.value]
  {
  }

  lemma PairIffFlattened(strings: seq<Bytes>, entries: seq<Entry>)
    ensures Pair(strings) == Some(entries) <==> strings == Flatten(entries)
  {
    if strings == Flatten(entries) {
      assert Pair(strings).value == entries;
    }
    if Pair(strings) == Some(entries) {
      forall i | 0 <= i < |strings| ensures strings[i] == Flatten(entries)[i] {
        assert entries[i / 2] == Entry(strings[2 * (i / 2)], strings[2 * (i / 2) + 1]);
      }
      assert strings == Flatten(entries);
    }
  }

  // ----- records of fixed shape -----

  datatype Field = Number(width: nat, value: int) | Text(bytes: Bytes)

  datatype Shape = NumberOf(width: nat) | AnyText

  function ShapeOf(f: Field): Shape {
    match f case Number(width, _) => NumberOf(width) case Text(_) => AnyText
  }

  function Shapes(fields: seq<Field>): seq<Shape> {
    seq(|fields|, i requires 0 <= i < |fields| => ShapeOf(fields[i]))
  }

  function PackField(f: Field): Option<Bytes> {
    match f case Number(width, value) => Pack(value, width) case Text(bytes) => PackString(bytes)
  }

  function UnpackField(shape: Shape, input: Bytes): Option<Parsed<Field>> {
    match shape
    case NumberOf(width) =>
      var Parsed(value, rest) :- Unpack(width, input);
      Some(Parsed(Number(width, value), rest))
    case AnyText =>
      var Parsed(bytes, rest) :- UnpackString(input);
      Some(Parsed(Text(bytes), rest))
  }

  function PackFields(fields: seq<Field>): Option<Bytes> {
    if fields == [] then Some([])
    else
      var first :- PackField(fields[0]);
      var others :- PackFields(fields[1..]);
      Some(first + others)
  }

  function UnpackFields(shapes: seq<Shape>, input: Bytes): Option<Parsed<seq<Field>>>
    decreases |shapes|
  {
    if shapes == [] then Some(Parsed([], input))
    else
      var Parsed(first, rest) :- UnpackField(shapes[0], input);
      var Parsed(others, end) :- UnpackFields(shapes[1..], rest);
      Some(Parsed([first] + others, end))
  }

  lemma FieldIffPacked(shape: Shape, input: Bytes, f: Field, rest: Bytes)
    ensures UnpackField(shape, input) == Some(Parsed(f, rest)) <==>
            (ShapeOf(f) == shape && PackField(f).Some? && input == PackField(f).value + rest)
  {
    match f {
      case Number(width, value) => NumberIffPacked(width, input, value, rest);
      case Text(bytes) => StringIffPacked(input, bytes, rest);
    }
  }

  lemma PackFieldsCons(first: Field, others: seq<Field>)
    requires PackField(first).Some? && PackFields(others).Some?
    ensures PackFields([first] + others) == Some(PackField(first).value + PackFields(others).value)
    ensures Shapes([first] + others) == [ShapeOf(first)] + Shapes(others)
  {
    assert ([first] + others)[1..] == others;
  }

  lemma {:induction false} UnpackedFields(shapes: seq<Shape>, input: Bytes)
    ensures var u := UnpackFields(shapes, input);
            u.Some? ==> Shapes(u.value.value) == shapes && PackFields(u.value.value).Some? &&
                        input == PackFields(u.value.value).value + u.value.rest
    decreases |shapes|
  {
    if shapes == [] || UnpackFields(shapes, input) == None {
    } else {
      var Parsed(first, after) := UnpackField(shapes[0], input).value;
      var Parsed(others, rest) := UnpackFields(shapes[1..], after).value;
      FieldIffPacked(shapes[0], input, first, after);
      UnpackedFields(shapes[1..], after);
      PackFieldsCons(first, others);
      Regroup(PackField(first).value, PackFields(others).value, rest);
    }
  }

  lemma {:induction false} PackedFields(fields: seq<Field>, rest: Bytes)
    requires PackFields(fields).Some?
    ensures UnpackFields(Shapes(fields), PackFields(fields).value + rest) == Some(Parsed(fields, rest))
  {
    if fields == [] {
      assert PackFields(fields).value + rest == rest;
    } else {
      var first, others := fields[0], fields[1..];
      var after := PackFields(others).value + rest;
      var input := PackFields(fields).value + rest;
      assert input == PackField(first).value + after;
      assert Shapes(fields)[1..] == Shapes(others);
      FieldIffPacked(ShapeOf(first), input, first, after);
      PackedFields(others, rest);
      assert fields == [first] + others;
    }
  }

  /** Parsing a fixed shape inverts packing it, and accepts nothing else. */
  lemma {:induction false} FieldsIffPacked(shapes: seq<Shape>, input: Bytes, fields: seq<Field>, rest: Bytes)
    ensures UnpackFields(shapes, input) == Some(Parsed(fields, rest)) <==>
            (Shapes(fields) == shapes && PackFields(fields).Some? && input == PackFields(fields).value + rest)
  {
    UnpackedFields(shapes, input);
    if PackFields(fields).Some? {
      PackedFields(fields, rest);
    }
  }

  // ----- the certificate -----

  datatype Certificate = Certificate(
    nonce: Bytes,
    publicKey: Bytes,
    serial: int,
    certType: int,
    keyId: Bytes,
    principals: seq<Bytes>,
    validAfter: int,
    validBefore: int,
    criticalOptions: seq<Entry>,
    extensions: seq<Entry>,
    caKey: Bytes)

  const LAYOUT: seq<Shape> := [
    AnyText, AnyText, NumberOf(8), NumberOf(4), AnyText, AnyText,
    NumberOf(8), NumberOf(8), AnyText, AnyText, NumberOf(4), AnyText]

  /** The fields of the record, with the three nested runs of strings already packed. */
  datatype Body = Body(
    nonce: Bytes,
    publicKey: Bytes,
    serial: int,
    certType: int,
    keyId: Bytes,
    principals: Bytes,
    validAfter: int,
    validBefore: int,
    criticalOptions: Bytes,
    extensions: Bytes,
    reserved: int,
    caKey: Bytes)

  function Fields(b: Body): seq<Field> {
    [Text(b.nonce), Text(b.publicKey), Number(8, b.serial), Number(4, b.certType), Text(b.keyId), Text(b.principals),
     Number(8, b.validAfter), Number(8, b.validBefore), Text(b.criticalOptions), Text(b.extensions),
     Number(4, b.reserved), Text(b.caKey)]
  }

  function OfFields(f: seq<Field>): Body
    requires Shapes(f) == LAYOUT
  {
    assert forall i | 0 <= i < |f| :: ShapeOf(f[i]) == LAYOUT[i];
    Body(f[0].bytes, f[1].bytes, f[2].value, f[3].value, f[4].bytes, f[5].bytes,
         f[6].value, f[7].value, f[8].bytes, f[9].bytes, f[10].value, f[11].bytes)
  }

  function PackEntries(entries: seq<Entry>): Option<Bytes> {
    PackStrings(Flatten(entries))
  }

  function UnpackEntries(input: Bytes): Option<seq<Entry>> {
    var strings :- UnpackStrings(input);
    Pair(strings)
  }

  function ToBody(c: Certificate): Option<Body> {
    var principals :- PackStrings(c.principals);
    var options :- PackEntries(c.criticalOptions);
    var extensions :- PackEntries(c.extensions);
    Some(Body(c.nonce, c.publicKey, c.serial, c.certType, c.keyId, principals, c.validAfter, c.validBefore,
              options, extensions, 0, c.caKey))
  }

  function FromBody(b: Body): Option<Certificate> {
    var principals :- UnpackStrings(b.principals);
    var options :- UnpackEntries(b.criticalOptions);
    var extensions :- UnpackEntries(b.extensions);
    if b.reserved != 0 then None
    else
      Some(Certificate(b.nonce, b.publicKey, b.serial, b.certType, b.keyId, principals, b.validAfter, b.validBefore,
                       options, extensions, b.caKey))
  }

  function Build(c: Certificate): Option<Bytes> {
    var body :- ToBody(c);
    PackFields(Fields(body))
  }

  function Decode(input: Bytes): Option<Parsed<Certificate>> {
    var Parsed(fields, rest) :- UnpackFields(LAYOUT, input);
    UnpackedFields(LAYOUT, input);
    var certificate :- FromBody(OfFields(fields));
    Some(Parsed(certificate, rest))
  }

  lemma EntriesIffPacked(input: Bytes, entries: seq<Entry>)
    ensures UnpackEntries(input) == Some(entries) <==> PackEntries(entries) == Some(input)
  {
    var strings := Flatten(entries);
    StringsIffPacked(input, strings);
    PairIffFlattened(strings, entries);
    if UnpackStrings(input).Some? {
      PairIffFlattened(UnpackStrings(input).value, entries);
    }
  }

  lemma BodyIffPacked(b: Body, c: Certificate)
    ensures FromBody(b) == Some(c) <==> ToBody(c) == Some(b)
  {
    StringsIffPacked(b.principals, c.principals);
    EntriesIffPacked(b.criticalOptions, c.criticalOptions);
    EntriesIffPacked(b.extensions, c.extensions);
  }

  lemma FieldsOfBody(b: Body)
    ensures Shapes(Fields(b)) == LAYOUT && OfFields(Fields(b)) == b
  {
  }

  lemma BodyOfFields(f: seq<Field>)
    requires Shapes(f) == LAYOUT
    ensures Fields(OfFields(f)) == f
  {
    forall i | 0 <= i < |f| ensures Fields(OfFields(f))[i] == f[i] {
      assert ShapeOf(f[i]) == LAYOUT[i];
    }
  }

  /** The decoder accepts exactly the built certificates, whatever follows them. */
  lemma {:induction false} DecodeIffBuilt(input: Bytes, c: Certificate, rest: Bytes)
    ensures Decode(input) == Some(Parsed(c, rest)) <==>
            (Build(c).Some? && input == Build(c).value + rest)
  {
    if Decode(input) == Some(Parsed(c, rest)) {
      var fields := UnpackFields(LAYOUT, input).value.value;
      FieldsIffPacked(LAYOUT, input, fields, rest);
      BodyOfFields(fields);
      BodyIffPacked(OfFields(fields), c);
    }
    if Build(c).Some? && input == Build(c).value + rest {
      var body := ToBody(c).value;
      FieldsOfBody(body);
      FieldsIffPacked(LAYOUT, input, Fields(body), rest);
      BodyIffPacked(body, c);
    }
  }

  /** The order of the fields, with their widths, and the zero in the reserved field. */
  lemma CertificateLayout(c: Certificate)
    ensures var principals := PackStrings(c.principals);
            var options := PackEntries(c.criticalOptions);
            var extensions := PackEntries(c.extensions);
            Build(c) ==
            if principals.Some? && options.Some? && extensions.Some?
            then PackFields([
                   Text(c.nonce), Text(c.publicKey), Number(8, c.serial), Number(4, c.certType), Text(c.keyId),
                   Text(principals.value), Number(8, c.validAfter), Number(8, c.validBefore), Text(options.value),
                   Text(extensions.value), Number(4, 0), Text(c.caKey)])
            else None
  {
  }

  /** No two certificates share an encoding, and none is a prefix of another. */
  lemma BuildInjective(c: Certificate, d: Certificate, r: Bytes, s: Bytes)
    requires Build(c).Some? && Build(d).Some?
    requires Build(c).value + r == Build(d).value + s
    ensures c == d && r == s
  {
    DecodeIffBuilt(Build(c).value + r, c, r);
    DecodeIffBuilt(Build(c).value + r, d, s);
  }

  // ----- when building succeeds -----

  ghost predicate FieldFits(f: Field) {
    match f case Number(width, value) => 0 <= value < Power256(width) case Text(bytes) => |bytes| < LIMIT32
  }

  ghost predicate RunFits(strings: seq<Bytes>) {
    (forall s | s in strings :: |s| < LIMIT32) && PackedSize(strings) < LIMIT32
  }

  /** Every string and every packed run fits 32 bits, every number its own width. */
  ghost predicate Fits(c: Certificate) {
    && |c.nonce| < LIMIT32 && |c.publicKey| < LIMIT32 && |c.keyId| < LIMIT32 && |c.caKey| < LIMIT32
    && RunFits(c.principals) && RunFits(Flatten(c.criticalOptions)) && RunFits(Flatten(c.extensions))
    && 0 <= c.serial < LIMIT64 && 0 <= c.validAfter < LIMIT64 && 0 <= c.validBefore < LIMIT64
    && 0 <= c.certType < LIMIT32
  }

  lemma {:induction false} FieldsFit(fields: seq<Field>)
    ensures PackFields(fields).Some? <==> forall i | 0 <= i < |fields| :: FieldFits(fields[i])
  {
    if fields == [] {
    } else {
      Powers();
      FieldsFit(fields[1..]);
      assert forall i | 0 < i < |fields| :: fields[i] == fields[1..][i - 1];
    }
  }

  lemma BodyFits(b: Body)
    ensures PackFields(Fields(b)).Some? <==>
            && |b.nonce| < LIMIT32 && |b.publicKey| < LIMIT32 && |b.keyId| < LIMIT32 && |b.caKey| < LIMIT32
            && |b.principals| < LIMIT32 && |b.criticalOptions| < LIMIT32 && |b.extensions| < LIMIT32
            && 0 <= b.serial < LIMIT64 && 0 <= b.validAfter < LIMIT64 && 0 <= b.validBefore < LIMIT64
            && 0 <= b.certType < LIMIT32 && 0 <= b.reserved < LIMIT32
  {
    var f := Fields(b);
    Powers();
    FieldsFit(f);
    if PackFields(f).Some? {
      assert FieldFits(f[0]) && FieldFits(f[1]) && FieldFits(f[2]) && FieldFits(f[3]);
      assert FieldFits(f[4]) && FieldFits(f[5]) && FieldFits(f[6]) && FieldFits(f[7]);
      assert FieldFits(f[8]) && FieldFits(f[9]) && FieldFits(f[10]) && FieldFits(f[11]);
    }
  }

  /** Building raises exactly when some part does not fit. */
  lemma BuildsIffFits(c: Certificate)
    ensures Build(c).Some? <==> Fits(c)
  {
    StringsFit(c.principals);
    StringsFit(Flatten(c.criticalOptions));
    StringsFit(Flatten(c.extensions));
    if ToBody(c).Some? {
      BodyFits(ToBody(c).value);
    }
  }

  // ----- the builder -----

  lemma {:induction false} PackFieldsSnoc(fields: seq<Field>, last: Field)
    ensures PackFields(fields + [last]) ==
            if PackFields(fields).Some? && PackField(last).Some?
            then Some(PackFields(fields).value + PackField(last).value) else None
  {
    var all := fields + [last];
    if fields == [] {
      assert all[1..] == [];
      assert PackField(last).Some? ==> PackField(last).value + [] == [] + PackField(last).value;
    } else {
      assert all[1..] == fields[1..] + [last];
      PackFieldsSnoc(fields[1..], last);
      if PackFields(fields).Some? && PackField(last).Some? {
        Regroup(PackField(fields[0]).value, PackFields(fields[1..]).value, PackField(last).value);
      }
    }
  }

  lemma {:induction false} PackFieldsPrefix(fields: seq<Field>, n: nat)
    requires n <= |fields| && PackFields(fields[..n]).None?
    ensures PackFields(fields).None?
  {
    if n == 0 {
    } else {
      assert fields[..n][1..] == fields[1..][..n - 1];
      if PackField(fields[0]).Some? {
        PackFieldsPrefix(fields[1..], n - 1);
      }
    }
  }

  /** The loop over a list of principals. */
  method AppendStrings(strings: seq<Bytes>) returns (r: Option<Bytes>)
    ensures r == PackStrings(strings)
  {
    var data: Bytes := [];
    for i := 0 to |strings|
      invariant PackStrings(strings[..i]) == Some(data)
    {
      assert strings[..i + 1][..i] == strings[..i];
      var packed := PackString(strings[i]);
      if packed.None? {
        PackStringsPrefix(strings, i + 1);
        return None;
      }
      data := data + packed.value;
    }
    assert strings[..|strings|] == strings;
    return Some(data);
  }

  lemma PackStringsSnoc(strings: seq<Bytes>, last: Bytes)
    ensures PackStrings(strings + [last]) ==
            if PackStrings(strings).Some? && PackString(last).Some?
            then Some(PackStrings(strings).value + PackString(last).value) else None
  {
    assert (strings + [last])[..|strings|] == strings;
  }

  lemma EntryStrings(entries: seq<Entry>, i: nat)
    requires i < |entries|
    ensures Flatten(entries)[..2 * i + 1] == Flatten(entries)[..2 * i] + [entries[i].key]
    ensures Flatten(entries)[..2 * i + 2] == Flatten(entries)[..2 * i + 1] + [entries[i].value]
  {
  }

  /** The loop over a dictionary of options or extensions: two strings per entry. */
  method AppendEntries(entries: seq<Entry>) returns (r: Option<Bytes>)
    ensures r == PackEntries(entries)
  {
    ghost var strings := Flatten(entries);
    var data: Bytes := [];
    for i := 0 to |entries|
      invariant PackStrings(strings[..2 * i]) == Some(data)
    {
      EntryStrings(entries, i);
      PackStringsSnoc(strings[..2 * i], entries[i].key);
      PackStringsSnoc(strings[..2 * i + 1], entries[i].value);
      var key := PackString(entries[i].key);
      if key.None? {
        PackStringsPrefix(strings, 2 * i + 1);
        return None;
      }
      data := data + key.value;
      var value := PackString(entries[i].value);
      if value.None? {
        PackStringsPrefix(strings, 2 * i + 2);
        return None;
      }
      data := data + value.value;
    }
    assert strings[..2 * |entries|] == strings;
    return Some(data);
  }

  method AppendFields(fields: seq<Field>) returns (r: Option<Bytes>)
    ensures r == PackFields(fields)
  {
    var data: Bytes := [];
    for i := 0 to |fields|
      invariant PackFields(fields[..i]) == Some(data)
    {
      assert fields[..i + 1] == fields[..i] + [fields[i]];
      PackFieldsSnoc(fields[..i], fields[i]);
      var packed := PackField(fields[i]);
      if packed.None? {
        PackFieldsPrefix(fields, i + 1);
        return None;
      }
      data := data + packed.value;
    }
    assert fields[..|fields|] == fields;
    return Some(data);
  }

  /** Build the data of a certificate from its parts; the nonce is drawn by the caller. */
  method BuildSshCertificate(c: Certificate) returns (r: Option<Bytes>)
    ensures r == Build(c)
    ensures r.Some? <==> Fits(c)
    ensures r.Some? ==> forall rest :: Decode(r.value + rest) == Some(Parsed(c, rest))
  {
    BuildsIffFits(c);
    forall rest | Build(c).Some? ensures Decode(Build(c).value + rest) == Some(Parsed(c, rest)) {
      DecodeIffBuilt(Build(c).value + rest, c, rest);
    }
    var principals := AppendStrings(c.principals);
    if principals.None? {
      return None;
    }
    var options := AppendEntries(c.criticalOptions);
    if options.None? {
      return None;
    }
    var extensions := AppendEntries(c.extensions);
    if extensions.None? {
      return None;
    }
    r := AppendFields([
      Text(c.nonce), Text(c.publicKey), Number(8, c.serial), Number(4, c.certType), Text(c.keyId),
      Text(principals.value), Number(8, c.validAfter), Number(8, c.validBefore), Text(options.value),
      Text(extensions.value), Number(4, 0), Text(c.caKey)]);
  }
}
