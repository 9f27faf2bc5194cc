// What the loader derives from a manifest: schema sizes, fault plans compiled against a
// schema, and the check that every channel has one publisher.

module Manifest {
  import opened VirtualTime
  import opened Arithmetic
  import opened Bytes
  import opened Interceptor
  import opened Arena

  // ----- Schemas ------------------------------------------------------------------------------

  datatype Representation = Unsigned | Signed | Float

  datatype Layout = Layout(size: nat, representation: Representation)

  datatype Type = U8 | U16 | U32 | U64 | I8 | I16 | I32 | I64 | F32 | F64

  /** The schema type table. */
  function TypeNamed(name: string): Option<Type> {
    if name == "u8" then Some(U8)
    else if name == "u16" then Some(U16)
    else if name == "u32" then Some(U32)
    else if name == "u64" then Some(U64)
    else if name == "i8" then Some(I8)
    else if name == "i16" then Some(I16)
    else if name == "i32" then Some(I32)
    else if name == "i64" then Some(I64)
    else if name == "f32" then Some(F32)
    else if name == "f64" then Some(F64)
    else None
  }

  function LayoutOf(t: Type): (r: Layout)
    ensures r.size in {1, 2, 4, 8}
  {
    match t
    case U8 => Layout(1, Unsigned)
    case U16 => Layout(2, Unsigned)
    case U32 => Layout(4, Unsigned)
    case U64 => Layout(8, Unsigned)
    case I8 => Layout(1, Signed)
    case I16 => Layout(2, Signed)
    case I32 => Layout(4, Signed)
    case I64 => Layout(8, Signed)
    case F32 => Layout(4, Float)
    case F64 => Layout(8, Float)
  }

  /** A field; a count of zero is a scalar, any other a fixed-size array. */
  datatype Field = Field(name: string, kind: Type, count: u64)

  datatype RawField = RawField(name: string, kind: string, count: Option<u64>)

  datatype Schema = Schema(fields: seq<Field>, byteSize: u64)

  datatype SchemaResult =
    | Parsed(schema: Schema)
    | NoFields
    | UnknownType(field: nat)
    | BadCount(field: nat)
    | DuplicateName(field: nat)
    | FieldTooLarge(field: nat)
    | SchemaTooLarge(field: nat)

  function Elements(count: u64): nat {
    if count == 0 then 1 else count
  }

  /** The exact, unbounded size of a field. */
  function Width(f: Field): nat {
    Times(LayoutOf(f.kind).size, Elements(f.count))
  }

  /** size * n for the sizes the table has, spelled out. */
  function Times(size: nat, n: nat): (p: nat)
    ensures size in {1, 2, 4, 8} ==> p == size * n
  {
    if size == 1 then n else if size == 2 then 2 * n else if size == 4 then 4 * n else if size == 8 then 8 * n else 0
  }

  /** Where the n-th field starts: the exact sum of the widths before it. */
  function Offset(fields: seq<Field>, n: nat): nat
    requires n <= |fields|
  {
    if n == 0 then 0 else Offset(fields, n - 1) + Width(fields[n - 1])
  }

  /** The field a description stands for; one of unknown type is never used. */
  function Cooked(raw: RawField): Field {
    var t := TypeNamed(raw.kind);
    Field(raw.name, if t.Some? then t.value else U8, if raw.count.Some? then raw.count.value else 0)
  }

  function AllCooked(raw: seq<RawField>): (fields: seq<Field>)
    ensures |fields| == |raw|
    ensures forall i :: 0 <= i < |raw| ==> fields[i] == Cooked(raw[i])
  {
    seq(|raw|, i requires 0 <= i < |raw| => Cooked(raw[i]))
  }

  predicate Distinct(fields: seq<Field>) {
    forall i, j :: 0 <= i < j < |fields| ==> fields[i].name != fields[j].name
  }

  predicate ValidSchema(s: Schema) {
    Distinct(s.fields) && s.byteSize == Offset(s.fields, |s.fields|)
  }

  predicate GoodCount(raw: RawField) {
    raw.count.Some? ==> raw.count.value >= 1
  }

  /** What a schema must be: some fields, known types, positive counts, distinct names, and
      an exact size that 64 bits hold. */
  predicate Acceptable(raw: seq<RawField>) {
    var fields := AllCooked(raw);
    && raw != []
    && (forall i :: 0 <= i < |raw| ==> TypeNamed(raw[i].kind).Some? && GoodCount(raw[i]))
    && Distinct(fields)
    && Offset(fields, |fields|) < TWO64
  }

  lemma {:induction false} OffsetMonotone(fields: seq<Field>, i: nat, j: nat)
    requires i <= j <= |fields|
    ensures Offset(fields, i) <= Offset(fields, j)
    decreases j
  {
    if i >= j {
    } else {
      OffsetMonotone(fields, i, j - 1);
    }
  }

  lemma OffsetNext(fields: seq<Field>, i: nat)
    requires i < |fields|
    ensures Offset(fields, i + 1) == Offset(fields, i) + Width(fields[i])
  {
    hide Width;
  }

  lemma GuardIsExact(size: nat, elements: nat)
    requires size in {1, 2, 4, 8}
    ensures elements > MAX64 / size <==> size * elements > MAX64
  {
  }

  /** The size of one field, unless 64 bits cannot hold it. */
  method FieldSize(f: Field) returns (r: Option<u64>)
    ensures r.Some? <==> Width(f) < TWO64
    ensures r.Some? ==> r.value == Width(f)
  {
    var elements, size := Elements(f.count), LayoutOf(f.kind).size;
    GuardIsExact(size, elements);
    if elements > MAX64 / size { return None; }
    r := Some(size * elements);
  }

  /** What the first `i` fields have passed. */
  predicate Passed(raw: seq<RawField>, i: nat, names: set<string>)
    requires i <= |raw|
  {
    && (forall k :: 0 <= k < i ==> TypeNamed(raw[k].kind).Some? && GoodCount(raw[k]) && raw[k].name in names)
    && (forall n :: n in names ==> exists k :: 0 <= k < i && raw[k].name == n)
    && (forall j, k :: 0 <= j < k < i ==> raw[j].name != raw[k].name)
  }

  lemma PassedNext(raw: seq<RawField>, i: nat, names: set<string>)
    requires i < |raw| && Passed(raw, i, names) && raw[i].name !in names
    requires TypeNamed(raw[i].kind).Some? && GoodCount(raw[i])
    ensures Passed(raw, i + 1, names + {raw[i].name})
  {
    hide TypeNamed, GoodCount;
  }

  lemma BadField(raw: seq<RawField>, i: nat)
    requires i < |raw| && (TypeNamed(raw[i].kind).None? || !GoodCount(raw[i]))
    ensures !Acceptable(raw)
  {
    hide TypeNamed, Offset, Distinct;
  }

  lemma RepeatedName(raw: seq<RawField>, i: nat, names: set<string>)
    requires i < |raw| && Passed(raw, i, names) && raw[i].name in names
    ensures !Acceptable(raw)
  {
    var k :| 0 <= k < i && raw[k].name == raw[i].name;
    var fields := AllCooked(raw);
    assert fields[k].name == fields[i].name;
  }

  lemma TooLarge(raw: seq<RawField>, i: nat)
    requires i < |raw| && Offset(AllCooked(raw), i + 1) >= TWO64
    ensures !Acceptable(raw)
  {
    hide Offset, TypeNamed, Distinct, Cooked;
    OffsetMonotone(AllCooked(raw), i + 1, |raw|);
  }

  lemma AllPassed(raw: seq<RawField>, names: set<string>)
    requires raw != [] && Passed(raw, |raw|, names) && Offset(AllCooked(raw), |raw|) < TWO64
    ensures Acceptable(raw)
    ensures ValidSchema(Schema(AllCooked(raw), Offset(AllCooked(raw), |raw|)))
  {
    hide TypeNamed, Offset;
  }

  /** One turn of the loop in `parse_schema`: the checks in their order. */
  method CheckField(raw: seq<RawField>, i: nat, names: set<string>, byteSize: u64)
    returns (error: Option<SchemaResult>, size: u64)
    requires i < |raw| && Passed(raw, i, names) && byteSize == Offset(AllCooked(raw), i)
    ensures error.Some? ==> !error.value.Parsed? && !Acceptable(raw)
    ensures error.None? ==> Passed(raw, i + 1, names + {raw[i].name}) && size == Offset(AllCooked(raw), i + 1)
  {
    var f := raw[i];
    hide *;
    CountGuard(f);
    size := byteSize;
    if TypeNamed(f.kind).None? {
      BadField(raw, i);
      return Some(UnknownType(i)), size;
    }
    if f.count == Some(0) {
      BadField(raw, i);
      return Some(BadCount(i)), size;
    }
    if f.name in names {
      RepeatedName(raw, i, names);
      return Some(DuplicateName(i)), size;
    }
    PassedNext(raw, i, names);
    OffsetNext(AllCooked(raw), i);
    var width := FieldSize(Cooked(f));
    if width.None? {
      TooLarge(raw, i);
      return Some(FieldTooLarge(i)), size;
    }
    if byteSize > MAX64 - width.value {
      TooLarge(raw, i);
      return Some(SchemaTooLarge(i)), size;
    }
    return None, byteSize + width.value;
  }

  /** `parse_schema`: accepts exactly the acceptable schemas, with the exact size. */
  method ParseSchema(raw: seq<RawField>) returns (r: SchemaResult)
    ensures r.Parsed? <==> Acceptable(raw)
    ensures r.Parsed? ==> ValidSchema(r.schema) && r.schema.fields == AllCooked(raw)
  {
    hide *;
    Nothing(raw);
    if raw == [] { return NoFields; }
    var fields: seq<Field>, names: set<string>, byteSize: u64 := [], {}, 0;
    for i := 0 to |raw|
      invariant fields == AllCooked(raw)[..i]
      invariant Passed(raw, i, names)
      invariant byteSize == Offset(AllCooked(raw), i)
    {
      var error, size := CheckField(raw, i, names, byteSize);
      if error.Some? { return error.value; }
      names := names + {raw[i].name};
      fields := fields + [Cooked(raw[i])];
      byteSize := size;
    }
    assert fields == AllCooked(raw);
    AllPassed(raw, names);
    r := Parsed(Schema(fields, byteSize));
  }

  lemma Nothing(raw: seq<RawField>)
    ensures Passed(raw, 0, {}) && Offset(AllCooked(raw), 0) == 0
    ensures raw == [] ==> !Acceptable(raw)
  {
  }

  lemma CountGuard(f: RawField)
    ensures GoodCount(f) <==> f.count != Some(0)
  {
  }

  /** Fields take pairwise disjoint ranges inside the message. */
  lemma FieldsAreDisjoint(fields: seq<Field>, i: nat, j: nat)
    requires i < j < |fields|
    ensures Offset(fields, i) + Width(fields[i]) <= Offset(fields, j)
    ensures Offset(fields, j) + Width(fields[j]) <= Offset(fields, |fields|)
  {
    hide *;
    OffsetNext(fields, i);
    OffsetNext(fields, j);
    OffsetMonotone(fields, i + 1, j);
    OffsetMonotone(fields, j + 1, |fields|);
  }

  // ----- Override constants ----------------------------------------------------------------------

  type i64 = x: int | -0x8000_0000_0000_0000 <= x < 0x8000_0000_0000_0000

  type u32 = x: int | 0 <= x < TWO32

  /** A constant in the category it was written in; floats are their bit patterns. */
  datatype Value = UnsignedValue(u: u64) | SignedValue(i: i64) | FloatValue(single: u32, double: u64)

  /** The bits of a constant of the field's own category. */
  function Bits(layout: Layout, v: Value): Option<u64> {
    match layout.representation
    case Unsigned => if v.UnsignedValue? then Some(v.u) else None
    case Signed => if v.SignedValue? then Some(v.i % TWO64) else None
    case Float => if v.FloatValue? then Some(if layout.size == 4 then v.single else v.double) else None
  }

  function Encoded(layout: Layout, v: Value): Option<seq<byte>> {
    match Bits(layout, v)
    case Some(bits) => Some(Le(bits, layout.size))
    case None => None
  }

  lemma {:induction false} LeSnoc(x: nat, n: nat)
    ensures Le(x, n + 1) == Le(x, n) + [x / Pow256(n) % 256]
    decreases n
  {
    if n == 0 {
    } else {
      LeSnoc(x / 256, n - 1);
      NestedDivision(x, Pow256(n - 1));
    }
  }

  lemma NestedDivision(x: nat, p: nat)
    requires p > 0
    ensures 256 * p > 0 && x / 256 / p == x / (256 * p)
  {
    var y := x / 256;
    var q, r := y / p, y % p;
    assert y == q * p + r;
    assert q * (256 * p) == 256 * (q * p);
    DivModUnique(x, 256 * p, q, 256 * r + x % 256);
  }

  /** `encode_override`: the low bytes of the constant, least significant first. */
  method EncodeOverride(layout: Layout, v: Value) returns (r: Option<seq<byte>>)
    ensures r == Encoded(layout, v)
  {
    var bits := Bits(layout, v);
    if bits.None? { return None; }
    var bytes: seq<byte> := [];
    for i := 0 to layout.size
      invariant bytes == Le(bits.value, i)
    {
      LeSnoc(bits.value, i);
      bytes := bytes + [bits.value / Pow256(i) % 256];
    }
    return Some(bytes);
  }

  lemma {:induction false} LeIsModulo(x: nat, n: nat)
    ensures FromLe(Le(x, n)) == x % Pow256(n)
    decreases n
  {
    if n == 0 {
    } else {
      LeIsModulo(x / 256, n - 1);
      NestedModulo(x, Pow256(n - 1));
    }
  }

  lemma NestedModulo(x: nat, p: nat)
    requires p > 0
    ensures 256 * p > 0 && x % (256 * p) == x % 256 + 256 * (x / 256 % p)
  {
    var q, r := x / 256 / p, x / 256 % p;
    assert x / 256 == q * p + r;
    assert q * (256 * p) == 256 * (q * p);
    DivModUnique(x, 256 * p, q, 256 * r + x % 256);
  }

  /** Two's complement. */
  function AsSigned(x: nat, size: nat): int {
    if 2 * x < Pow256(size) then x else x - Pow256(size)
  }

  predicate InRange(layout: Layout, v: Value) {
    match v
    case UnsignedValue(u) => u < Pow256(layout.size)
    case SignedValue(i) => -(Pow256(layout.size) as int) <= 2 * i < Pow256(layout.size)
    case FloatValue(_, _) => true
  }

  lemma FieldSizes()
    ensures Pow256(1) == 256 && Pow256(2) == 65536 && Pow256(4) == TWO32 && Pow256(8) == TWO64
  {
    EightBytes();
    assert Pow256(2) == 256 * Pow256(1) && Pow256(3) == 256 * Pow256(2);
  }

  lemma SignedSurvives(i: i64, size: nat)
    requires size in {1, 2, 4, 8}
    requires -(Pow256(size) as int) <= 2 * i < Pow256(size)
    ensures AsSigned(i % TWO64 % Pow256(size), size) == i
  {
    FieldSizes();
    hide Pow256;
    var x := if i < 0 then i + TWO64 else i as int;
    assert i % TWO64 == x;
    if size == 1 {
      DivModUnique(x, 256, if i < 0 then 0x100_0000_0000_0000 - 1 else 0, if i < 0 then i + 256 else i);
    } else if size == 2 {
      DivModUnique(x, 65536, if i < 0 then 0x1_0000_0000_0000 - 1 else 0, if i < 0 then i + 65536 else i);
    } else if size == 4 {
      DivModUnique(x, TWO32, if i < 0 then TWO32 - 1 else 0, if i < 0 then i + TWO32 else i);
    }
  }

  /** An integer constant its type can represent reads back as itself. */
  lemma ConstantReadsBack(layout: Layout, v: Value)
    requires layout.size in {1, 2, 4, 8} && InRange(layout, v)
    requires Encoded(layout, v).Some? && !v.FloatValue?
    ensures var x := FromLe(Encoded(layout, v).value);
      if v.UnsignedValue? then x == v.u else AsSigned(x, layout.size) == v.i
  {
    LeIsModulo(Bits(layout, v).value, layout.size);
    hide Pow256, AsSigned, Le, FromLe;
    match v
    case UnsignedValue(u) =>
      assert u % Pow256(layout.size) == u by { SmallModulo(u, Pow256(layout.size)); }
    case SignedValue(i) =>
      SignedSurvives(i, layout.size);
  }

  lemma SmallModulo(x: nat, m: nat)
    requires x < m
    ensures x % m == x
  {
    DivModUnique(x, m, 0, x);
  }

  // ----- Compiling a fault plan ----------------------------------------------------------------------

  datatype Fault =
    | DropFault
    | DropNthFault(n: Option<u64>)
    | DelayFault(delayNs: Option<u64>)
    | OverrideFault(field: string, value: Value)

  datatype FaultSpec = FaultSpec(fault: Fault, startNs: u64, endNs: Option<u64>)

  /** The first field of that name. */
  function FieldIndex(fields: seq<Field>, name: string): (r: Option<nat>)
    ensures r.Some? ==> r.value < |fields| && fields[r.value].name == name
  {
    if fields == [] then None
    else
      var n := |fields| - 1;
      var before := FieldIndex(fields[..n], name);
      if before.Some? then before else if fields[n].name == name then Some(n) else None
  }

  /** The compiled form of one fault, or nothing where the source throws. */
  function CompiledKind(fields: seq<Field>, fault: Fault): Option<Kind>
  {
    match fault
    case DropFault => Some(Drop)
    case DropNthFault(n) => if n.Some? && n.value >= 1 then Some(DropNth(n.value)) else None
    case DelayFault(d) => if d.Some? then Some(Delay(d.value)) else None
    case OverrideFault(name, value) =>
      var i := FieldIndex(fields, name);
      if i.None? || fields[i.value].count != 0 then None
      else
        match Encoded(LayoutOf(fields[i.value].kind), value)
        case None => None
        case Some(patch) => Some(Override(Offset(fields, i.value), patch))
  }

  function CompiledStep(fields: seq<Field>, spec: FaultSpec): Option<Step>
  {
    match CompiledKind(fields, spec.fault)
    case None => None
    case Some(kind) => Some(Step(kind, spec.startNs, spec.endNs, 0))
  }

  function CompiledPlan(fields: seq<Field>, specs: seq<FaultSpec>): (r: Option<seq<Step>>)
    ensures r.Some? ==> |r.value| == |specs|
  {
    if specs == [] then Some([])
    else
      var first, rest := CompiledStep(fields, specs[0]), CompiledPlan(fields, specs[1..]);
      if first.Some? && rest.Some? then Some([first.value] + rest.value) else None
  }

  /** The loop that looks a field up and adds the widths before it. */
  method FindField(fields: seq<Field>, name: string) returns (found: bool, i: nat, offset: nat)
    ensures found <==> FieldIndex(fields, name).Some?
    ensures found ==> FieldIndex(fields, name) == Some(i) && offset == Offset(fields, i)
  {
    hide LayoutOf;
    offset, i := 0, 0;
    while i < |fields|
      invariant 0 <= i <= |fields|
      invariant offset == Offset(fields, i)
      invariant FieldIndex(fields[..i], name).None?
    {
      if fields[i].name == name {
        FirstIndex(fields, name, i);
        return true, i, offset;
      }
      var layout := LayoutOf(fields[i].kind);
      assert fields[..i + 1][..i] == fields[..i];
      offset := offset + layout.size * Elements(fields[i].count);
      i := i + 1;
    }
    assert fields[..i] == fields;
    found := false;
  }

  lemma {:induction false} FirstIndex(fields: seq<Field>, name: string, i: nat)
    requires i < |fields| && fields[i].name == name && FieldIndex(fields[..i], name).None?
    ensures FieldIndex(fields, name) == Some(i)
  {
    var n := |fields| - 1;
    if i >= n {
    } else {
      assert fields[..n][..i] == fields[..i];
      FirstIndex(fields[..n], name, i);
    }
  }

  /** `compile_interceptor_plan` on a parsed schema; `None` is the source's logic_error. */
  method CompilePlan(schema: Schema, specs: seq<FaultSpec>) returns (r: Option<seq<Step>>)
    requires ValidSchema(schema)
    ensures r == CompiledPlan(schema.fields, specs)
  {
    var steps: seq<Step> := [];
    for k := 0 to |specs|
      invariant CompiledPlan(schema.fields, specs[..k]) == Some(steps)
    {
      PlanSnoc(schema.fields, specs, k);
      var step := CompileStep(schema, specs[k]);
      if step.None? {
        PlanFails(schema.fields, specs, k);
        return None;
      }
      steps := steps + [step.value];
    }
    assert specs[..|specs|] == specs;
    r := Some(steps);
  }

  method CompileStep(schema: Schema, spec: FaultSpec) returns (r: Option<Step>)
    requires ValidSchema(schema)
    ensures r == CompiledStep(schema.fields, spec)
  {
    hide LayoutOf, Offset;
    var kind: Kind;
    match spec.fault {
    case DropFault => kind := Drop;
    case DropNthFault(n) =>
      if n.None? || n.value < 1 { return None; }
      kind := DropNth(n.value);
    case DelayFault(d) =>
      if d.None? { return None; }
      kind := Delay(d.value);
    case OverrideFault(name, value) =>
      var found, i, offset := FindField(schema.fields, name);
      if !found || schema.fields[i].count != 0 { return None; }
      var patch := EncodeOverride(LayoutOf(schema.fields[i].kind), value);
      if patch.None? { return None; }
      kind := Override(offset, patch.value);
    }
    r := Some(Step(kind, spec.startNs, spec.endNs, 0));
  }

  lemma {:induction false} PlanSnoc(fields: seq<Field>, specs: seq<FaultSpec>, k: nat)
    requires k < |specs|
    ensures var before, step := CompiledPlan(fields, specs[..k]), CompiledStep(fields, specs[k]);
      CompiledPlan(fields, specs[..k + 1])
      == if before.Some? && step.Some? then Some(before.value + [step.value]) else None
    decreases k
  {
    hide CompiledStep;
    assert specs[..k + 1][1..] == specs[1..][..k];
    if k == 0 {
      var step := CompiledStep(fields, specs[0]);
      assert step.Some? ==> [step.value] + [] == [] + [step.value];
    } else {
      assert specs[..k][1..] == specs[1..][..k - 1];
      PlanSnoc(fields, specs[1..], k - 1);
      var first, rest := CompiledStep(fields, specs[0]), CompiledPlan(fields, specs[1..][..k - 1]);
      var step := CompiledStep(fields, specs[k]);
      if first.Some? && rest.Some? && step.Some? {
        assert [first.value] + (rest.value + [step.value]) == [first.value] + rest.value + [step.value];
      }
    }
  }

  lemma {:induction false} PlanFails(fields: seq<Field>, specs: seq<FaultSpec>, k: nat)
    requires k < |specs| && CompiledStep(fields, specs[k]).None?
    ensures CompiledPlan(fields, specs).None?
    decreases k
  {
    hide CompiledStep;
    if k == 0 {
    } else {
      PlanFails(fields, specs[1..], k - 1);
    }
  }

  // ----- What a compiled plan does to a message ----------------------------------------------------------

  /** The bytes of one field. */
  function FieldBytes(s: Schema, bytes: seq<byte>, i: nat): seq<byte>
    requires i < |s.fields| && Offset(s.fields, i) + Width(s.fields[i]) <= |bytes|
  {
    bytes[Offset(s.fields, i)..Offset(s.fields, i) + Width(s.fields[i])]
  }

  predicate Matches(spec: FaultSpec, now: u64, name: string) {
    && spec.fault.OverrideFault? && spec.fault.field == name
    && spec.startNs <= now && (spec.endNs.Some? ==> now < spec.endNs.value)
  }

  /** The constant of the last override of a field whose window holds `now`. */
  function LastOverride(specs: seq<FaultSpec>, now: u64, name: string): Option<Value> {
    if specs == [] then None
    else
      var later := LastOverride(specs[1..], now, name);
      if later.Some? then later
      else if Matches(specs[0], now, name) then Some(specs[0].fault.value)
      else None
  }

  /** Every field lies inside a message of the schema's size. */
  lemma FieldInMessage(s: Schema, i: nat)
    requires ValidSchema(s) && i < |s.fields|
    ensures Offset(s.fields, i) + Width(s.fields[i]) <= s.byteSize
  {
    assert s.byteSize == Offset(s.fields, |s.fields|);
    hide *;
    OffsetNext(s.fields, i);
    OffsetMonotone(s.fields, i + 1, |s.fields|);
  }

  lemma {:induction false} IndexIsUnique(fields: seq<Field>, i: nat)
    requires Distinct(fields) && i < |fields|
    ensures FieldIndex(fields, fields[i].name) == Some(i)
    decreases |fields|
  {
    var n := |fields| - 1;
    if i >= n {
    } else {
      IndexIsUnique(fields[..n], i);
    }
  }

  /** A compiled override patches exactly one scalar field with its encoded constant. */
  lemma CompiledOverride(s: Schema, spec: FaultSpec)
    requires ValidSchema(s) && spec.fault.OverrideFault? && CompiledStep(s.fields, spec).Some?
    ensures FieldIndex(s.fields, spec.fault.field).Some?
    ensures var k := FieldIndex(s.fields, spec.fault.field).value;
      var step := CompiledStep(s.fields, spec).value;
      && step.kind.Override?
      && step.kind.offset == Offset(s.fields, k)
      && |step.kind.patch| == Width(s.fields[k])
      && Encoded(LayoutOf(s.fields[k].kind), spec.fault.value) == Some(step.kind.patch)
  {
    hide Offset, LayoutOf, FieldIndex;
  }

  /** Patching one field replaces it and leaves every other field alone. */
  lemma PatchedFields(s: Schema, bytes: seq<byte>, k: nat, patch: seq<byte>, i: nat)
    requires ValidSchema(s) && |bytes| == s.byteSize && k < |s.fields| && i < |s.fields|
    requires |patch| == Width(s.fields[k])
    ensures Offset(s.fields, k) + |patch| <= |bytes| && Offset(s.fields, i) + Width(s.fields[i]) <= |bytes|
    ensures FieldBytes(s, Patched(bytes, Offset(s.fields, k), patch), i)
         == if i == k then patch else FieldBytes(s, bytes, i)
  {
    hide Offset, Width, Distinct;
    FieldInMessage(s, i);
    FieldInMessage(s, k);
    if i < k {
      FieldsAreDisjoint(s.fields, i, k);
    } else if k < i {
      FieldsAreDisjoint(s.fields, k, i);
    }
  }

  /** The value of a field after a plan: the last in-window override of it, else what it was. */
  ghost predicate FieldAfter(s: Schema, specs: seq<FaultSpec>, now: u64, bytes: seq<byte>, after: seq<byte>, i: nat)
    requires ValidSchema(s) && i < |s.fields| && |bytes| == |after| == s.byteSize
  {
    FieldInMessage(s, i);
    match LastOverride(specs, now, s.fields[i].name)
    case None => FieldBytes(s, after, i) == FieldBytes(s, bytes, i)
    case Some(v) => Encoded(LayoutOf(s.fields[i].kind), v) == Some(FieldBytes(s, after, i))
  }

  /** One override of the plan, before the rest of it. */
  lemma OverrideThenRest(s: Schema, specs: seq<FaultSpec>, step: Step, now: u64, bytes: seq<byte>, after: seq<byte>,
                         i: nat)
    requires ValidSchema(s) && |bytes| == |after| == s.byteSize && i < |s.fields| && specs != []
    requires CompiledStep(s.fields, specs[0]) == Some(step) && step.kind.Override? && InWindow(step, now)
    requires step.kind.offset + |step.kind.patch| <= |bytes|
    requires FieldAfter(s, specs[1..], now, Patched(bytes, step.kind.offset, step.kind.patch), after, i)
    ensures FieldAfter(s, specs, now, bytes, after, i)
  {
    var spec := specs[0];
    CompiledOverride(s, spec);
    var k := FieldIndex(s.fields, spec.fault.field).value;
    PatchedFields(s, bytes, k, step.kind.patch, i);
    IndexIsUnique(s.fields, i);
    assert Matches(spec, now, s.fields[i].name) <==> i == k;
    FieldInMessage(s, i);
    hide Offset, Width, Distinct, FieldBytes, FieldIndex, CompiledStep, Encoded, LayoutOf, Matches;
  }

  /** For every accepted schema, compiled plan and message of the schema's size: no patch is
      out of range, and each field ends as the last in-window override of it left it. */
  lemma {:induction false} PlanPatchesFields(s: Schema, specs: seq<FaultSpec>, now: u64, bytes: seq<byte>, i: nat)
    requires ValidSchema(s) && |bytes| == s.byteSize && i < |s.fields|
    requires CompiledPlan(s.fields, specs).Some?
    ensures var after := OverridePass(CompiledPlan(s.fields, specs).value, now, bytes);
      after.Some? && FieldAfter(s, specs, now, bytes, after.value, i)
    decreases |specs|
  {
    if specs == [] {
      FieldInMessage(s, i);
    } else {
      var steps := CompiledPlan(s.fields, specs).value;
      var step := CompiledStep(s.fields, specs[0]).value;
      assert steps[0] == step && steps[1..] == CompiledPlan(s.fields, specs[1..]).value;
      if step.kind.Override? && InWindow(step, now) {
        CompiledOverride(s, specs[0]);
        var k := FieldIndex(s.fields, specs[0].fault.field).value;
        FieldInMessage(s, k);
        hide FieldAfter, CompiledStep, FieldIndex, ValidSchema, LayoutOf, Encoded;
        var next := Patched(bytes, step.kind.offset, step.kind.patch);
        PlanPatchesFields(s, specs[1..], now, next, i);
        OverrideThenRest(s, specs, step, now, bytes, OverridePass(steps[1..], now, next).value, i);
      } else {
        PlanPatchesFields(s, specs[1..], now, bytes, i);
        NoMatch(s, specs[0], now, s.fields[i].name);
      }
    }
  }

  lemma NoMatch(s: Schema, spec: FaultSpec, now: u64, name: string)
    requires CompiledStep(s.fields, spec).Some?
    requires var step := CompiledStep(s.fields, spec).value; !step.kind.Override? || !InWindow(step, now)
    ensures !Matches(spec, now, name)
  {
    hide Offset, LayoutOf, FieldIndex;
  }

  ghost predicate SameField(s: Schema, a: seq<byte>, b: seq<byte>, i: nat)
    requires i < |s.fields|
  {
    && Offset(s.fields, i) + Width(s.fields[i]) <= |a| == |b|
    && FieldBytes(s, a, i) == FieldBytes(s, b, i)
  }

  /** The fields are all of a message: two messages that agree on them are equal. */
  lemma FieldsCover(s: Schema, a: seq<byte>, b: seq<byte>)
    requires ValidSchema(s) && |a| == |b| == s.byteSize
    requires forall i :: 0 <= i < |s.fields| ==> SameField(s, a, b, i)
    ensures a == b
  {
    hide SameField;
    AgreeUpTo(s, a, b, |s.fields|);
    assert a[..s.byteSize] == a && b[..s.byteSize] == b;
  }

  lemma {:induction false} AgreeUpTo(s: Schema, a: seq<byte>, b: seq<byte>, n: nat)
    requires n <= |s.fields| && |a| == |b|
    requires forall i :: 0 <= i < |s.fields| ==> SameField(s, a, b, i)
    ensures Offset(s.fields, n) <= |a| && a[..Offset(s.fields, n)] == b[..Offset(s.fields, n)]
    decreases n
  {
    hide SameField, Width;
    if n == 0 {
      assert a[..0] == b[..0];
    } else {
      AgreeUpTo(s, a, b, n - 1);
      AgreeOnOne(s, a, b, n - 1);
    }
  }

  lemma AgreeOnOne(s: Schema, a: seq<byte>, b: seq<byte>, n: nat)
    requires n < |s.fields| && SameField(s, a, b, n)
    requires Offset(s.fields, n) <= |a| && a[..Offset(s.fields, n)] == b[..Offset(s.fields, n)]
    ensures Offset(s.fields, n + 1) <= |a| && a[..Offset(s.fields, n + 1)] == b[..Offset(s.fields, n + 1)]
  {
    OffsetNext(s.fields, n);
    Glue(a, b, Offset(s.fields, n), Offset(s.fields, n + 1));
  }

  lemma Glue(a: seq<byte>, b: seq<byte>, from: nat, to: nat)
    requires from <= to <= |a| == |b| && a[..from] == b[..from] && a[from..to] == b[from..to]
    ensures a[..to] == b[..to]
  {
    assert a[..to] == a[..from] + a[from..to];
    assert b[..to] == b[..from] + b[from..to];
  }

  /** `apply` never throws on a message of the schema's size, whatever it has counted. */
  lemma PlanNeverThrows(s: Schema, specs: seq<FaultSpec>, steps: seq<Step>, duration: u64, now: u64, bytes: seq<byte>)
    requires ValidSchema(s) && s.fields != [] && |bytes| == s.byteSize
    requires CompiledPlan(s.fields, specs).Some? && SameShape(CompiledPlan(s.fields, specs).value, steps)
    ensures Apply(steps, duration, now, bytes).1 != Verdict.OutOfRange
    ensures Apply(steps, duration, now, bytes).1.Visible? ==>
      Some(Apply(steps, duration, now, bytes).1.bytes)
      == OverridePass(CompiledPlan(s.fields, specs).value, now, bytes)
  {
    hide CompiledPlan, ValidSchema, FieldAfter;
    var plan := CompiledPlan(s.fields, specs).value;
    PlanPatchesFields(s, specs, now, bytes, 0);
    ShapeDecides(plan, steps, now, bytes);
    ApplyMeaning(steps, duration, now, bytes);
    DropPassKeepsShape(steps, now);
    ShapeDecides(steps, DropPass(steps, now).0, now, bytes);
    hide DropPass, DelayPass, OverridePass, SameShape;
  }

  // ----- One publisher per channel --------------------------------------------------------------------------

  // Channels are compared only; `C` is whatever names them.
  datatype Participant<C> = Participant(name: string, publishes: seq<C>)

  /** Every declaration of a published channel, in manifest order. */
  function Declared<C>(ps: seq<Participant<C>>): seq<C> {
    if ps == [] then [] else Declared(ps[..|ps| - 1]) + ps[|ps| - 1].publishes
  }

  predicate NoRepeats<C(==)>(s: seq<C>) {
    forall i, j :: 0 <= i < j < |s| ==> s[i] != s[j]
  }

  predicate Publishes<C(==)>(p: Participant<C>, channel: C, name: string) {
    channel in p.publishes && p.name == name
  }

  /** The channel stands at two places among all the declarations. */
  ghost predicate DeclaredTwice<C>(ps: seq<Participant<C>>, channel: C) {
    exists a, b :: 0 <= a < b < |Declared(ps)| && Declared(ps)[a] == channel && Declared(ps)[b] == channel
  }

  /** `validate_one_publisher_per_channel`: accepts exactly when no channel is declared
      twice, and otherwise names one that is, with the participants of two of its declarations. */
  method ValidateOnePublisher<C(==)>(ps: seq<Participant<C>>) returns (error: Option<(C, string, string)>)
    ensures error.None? <==> NoRepeats(Declared(ps))
    ensures error.Some? ==> DeclaredTwice(ps, error.value.0)
    ensures error.Some? ==> exists i, j :: 0 <= i <= j < |ps| && Publishes(ps[i], error.value.0, error.value.1)
                                           && Publishes(ps[j], error.value.0, error.value.2)
  {
    var publisherOf: map<C, string> := map[];
    assert ps[..0] == [];
    for p := 0 to |ps|
      invariant NoRepeats(Declared(ps[..p]))
      invariant forall c :: c in publisherOf <==> c in Declared(ps[..p])
      invariant forall c :: c in publisherOf ==>
        exists i :: 0 <= i < p && Publishes(ps[i], c, publisherOf[c])
    {
      var list := ps[p].publishes;
      ghost var before := Declared(ps[..p]);
      for k := 0 to |list|
        invariant NoRepeats(before + list[..k])
        invariant forall c :: c in publisherOf <==> c in before + list[..k]
        invariant forall c :: c in publisherOf ==>
          exists i :: 0 <= i <= p && Publishes(ps[i], c, publisherOf[c])
      {
        DeclaredSplits(ps, p, k);
        if list[k] in publisherOf {
          assert Publishes(ps[p], list[k], ps[p].name);
          RepeatFound(before + list[..k], list[k], Declared(ps));
          return Some((list[k], publisherOf[list[k]], ps[p].name));
        }
        assert before + list[..k + 1] == before + list[..k] + [list[k]];
        assert Publishes(ps[p], list[k], ps[p].name);
        publisherOf := publisherOf[list[k] := ps[p].name];
      }
      assert list[..|list|] == list;
      assert ps[..p + 1][..p] == ps[..p];
      assert Declared(ps[..p + 1]) == before + list;
    }
    assert ps[..|ps|] == ps;
    error := None;
  }

  lemma {:induction false} DeclaredSplits<C>(ps: seq<Participant<C>>, p: nat, k: nat)
    requires p < |ps| && k < |ps[p].publishes|
    ensures Declared(ps[..p]) + ps[p].publishes[..k] + [ps[p].publishes[k]] <= Declared(ps)
    decreases |ps|
  {
    var n := |ps| - 1;
    if p < n {
      assert ps[..n][..p] == ps[..p];
      DeclaredSplits(ps[..n], p, k);
    } else {
      var list := ps[p].publishes;
      assert list == list[..k] + [list[k]] + list[k + 1..];
    }
  }

  lemma RepeatFound<C>(before: seq<C>, c: C, all: seq<C>)
    requires c in before && before + [c] <= all
    ensures !NoRepeats(all)
    ensures exists a, b :: 0 <= a < b < |all| && all[a] == c && all[b] == c
  {
    var i :| 0 <= i < |before| && before[i] == c;
    assert all[i] == (before + [c])[i] && all[|before|] == (before + [c])[|before|];
  }

  /** What the check is for: two participants never publish the same channel. */
  lemma {:induction false} PublishersAreSeparate<C>(ps: seq<Participant<C>>, i: nat, j: nat, c: C)
    requires NoRepeats(Declared(ps)) && i < j < |ps|
    ensures !(c in ps[i].publishes && c in ps[j].publishes)
    decreases |ps|
  {
    var n := |ps| - 1;
    var before, last := Declared(ps[..n]), ps[n].publishes;
    assert NoRepeats(before) by {
      forall a, b | 0 <= a < b < |before| ensures before[a] != before[b] {
        assert Declared(ps)[a] == before[a] && Declared(ps)[b] == before[b];
      }
    }
    if j < n {
      PublishersAreSeparate(ps[..n], i, j, c);
    } else if c in ps[i].publishes && c in last {
      DeclaredHolds(ps[..n], i, c);
      Twice(before, last, c);
    }
  }

  lemma Twice<C>(a: seq<C>, b: seq<C>, c: C)
    requires c in a && c in b
    ensures !NoRepeats(a + b)
  {
    var i :| 0 <= i < |a| && a[i] == c;
    var j :| 0 <= j < |b| && b[j] == c;
    assert (a + b)[i] == (a + b)[|a| + j];
  }

  lemma {:induction false} DeclaredHolds<C>(ps: seq<Participant<C>>, i: nat, c: C)
    requires i < |ps| && c in ps[i].publishes
    ensures c in Declared(ps)
    decreases |ps|
  {
    if i == |ps| - 1 {
    } else {
      DeclaredHolds(ps[..|ps| - 1], i, c);
    }
  }
}
