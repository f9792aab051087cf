/** An explicit stand-in for the part of Go's `reflect` package the schema engine uses:
    a struct type is a tree of fields, a payload is a tree of values of that shape. */
module Reflect {
  import opened Wrappers
  import opened Strings

  /** The leaf kinds the model supports; slices and maps are left out because Go's
      `==` on interfaces panics for them. */
  datatype Kind = StringKind | IntKind | BoolKind

  /** A Go type: a leaf kind, or a struct with its fields in declaration order. */
  datatype Type = Leaf(kind: Kind) | Struct(fields: seq<Field>)

  /** A struct field: its name, the value of its `sleepy` tag key, and its type. */
  datatype Field = Field(name: string, tag: string, typ: Type)

  /** A Go value: a leaf, or a struct value with one value per field. */
  datatype Value = Str(s: string) | Int(i: int) | Bool(b: bool) | Record(items: seq<Value>)

  /** `v` is a value of type `t`. */
  predicate Conforms(v: Value, t: Type)
    decreases t
  {
    match t
    case Leaf(k) =>
      (k == StringKind && v.Str?) || (k == IntKind && v.Int?) || (k == BoolKind && v.Bool?)
    case Struct(fs) =>
      v.Record? && |v.items| == |fs| &&
      forall i :: 0 <= i < |fs| ==> Conforms(v.items[i], fs[i].typ)
  }

  /** `reflect.Zero(t)`: the zero value of type `t`. */
  function Zero(t: Type): (z: Value)
    ensures Conforms(z, t)
    decreases t
  {
    match t
    case Leaf(StringKind) => Str("")
    case Leaf(IntKind) => Int(0)
    case Leaf(BoolKind) => Bool(false)
    case Struct(fs) => Record(seq(|fs|, i requires 0 <= i < |fs| => Zero(fs[i].typ)))
  }

  /** `reflect.Zero(reflect.TypeOf(v))`: the zero value of `v`'s own type. */
  function ZeroLike(v: Value): Value
  {
    match v
    case Str(_) => Str("")
    case Int(_) => Int(0)
    case Bool(_) => Bool(false)
    case Record(items) => Record(seq(|items|, i requires 0 <= i < |items| => ZeroLike(items[i])))
  }

  /** Reference definition of "zero": every leaf holds its kind's zero. */
  predicate AllZero(v: Value)
  {
    match v
    case Str(s) => s == ""
    case Int(i) => i == 0
    case Bool(b) => !b
    case Record(items) => forall i :: 0 <= i < |items| ==> AllZero(items[i])
  }

  /** Comparing a value with the zero of its own type is the leaf-wise zero test. */
  lemma {:induction false} ZeroLikeIff(v: Value)
    ensures v == ZeroLike(v) <==> AllZero(v)
  {
    match v
    case Record(items) =>
      var z := ZeroLike(v);
      forall i | 0 <= i < |items| ensures items[i] == z.items[i] <==> AllZero(items[i]) {
        ZeroLikeIff(items[i]);
      }
      if AllZero(v) {
        assert items == z.items;
      }
    case _ =>
  }

  /** For a value of type `t`, being `Zero(t)` is being zero leaf-wise. */
  lemma {:induction false} ZeroOfTypeIff(v: Value, t: Type)
    requires Conforms(v, t)
    ensures v == Zero(t) <==> AllZero(v)
    decreases t
  {
    match t
    case Struct(fs) =>
      var z := Zero(t);
      forall i | 0 <= i < |fs| ensures v.items[i] == z.items[i] <==> AllZero(v.items[i]) {
        ZeroOfTypeIff(v.items[i], fs[i].typ);
      }
      if AllZero(v) {
        assert v.items == z.items;
      }
    case Leaf(_) =>
  }

  /** `reflect.Type.FieldByIndex(pos).Type`, with `pos == []` naming `t` itself;
      `None` where Go panics (an index into a non-struct or out of range). */
  function TypeAt(t: Type, pos: seq<int>): Option<Type>
    decreases |pos|
  {
    if pos == [] then Some(t)
    else match t
      case Leaf(_) => None
      case Struct(fs) => if 0 <= pos[0] < |fs| then TypeAt(fs[pos[0]].typ, pos[1..]) else None
  }

  /** `reflect.Type.FieldByIndex(path)` for a non-empty path: the field it reaches. */
  function FieldAt(t: Type, path: seq<int>): (f: Option<Field>)
    ensures f.Some? ==> path != [] && TypeAt(t, path) == Some(f.value.typ)
    decreases |path|
  {
    if path == [] then None
    else match t
      case Leaf(_) => None
      case Struct(fs) =>
        if !(0 <= path[0] < |fs|) then None
        else if |path| == 1 then Some(fs[path[0]])
        else FieldAt(fs[path[0]].typ, path[1..])
  }

  /** `reflect.Value.FieldByIndex(path)`; `None` where Go panics. */
  function ValueAt(v: Value, path: seq<int>): Option<Value>
    decreases |path|
  {
    if path == [] then Some(v)
    else match v
      case Record(items) =>
        if 0 <= path[0] < |items| then ValueAt(items[path[0]], path[1..]) else None
      case _ => None
  }

  /** Extending a path into a struct reaches that struct's field. */
  lemma {:induction false} TypeAtSnoc(t: Type, pos: seq<int>, fs: seq<Field>, i: int)
    requires TypeAt(t, pos) == Some(Struct(fs))
    requires 0 <= i < |fs|
    ensures TypeAt(t, pos + [i]) == Some(fs[i].typ)
    ensures FieldAt(t, pos + [i]) == Some(fs[i])
    decreases |pos|
  {
    if pos == [] {
      assert [i][1..] == [];
    } else {
      assert (pos + [i])[1..] == pos[1..] + [i];
      TypeAtSnoc(t.fields[pos[0]].typ, pos[1..], fs, i);
    }
  }

  /** A path that names a field of `t` resolves in every value of type `t`, to a
      value of that field's type. */
  lemma {:induction false} ValueAtConforms(v: Value, t: Type, path: seq<int>)
    requires Conforms(v, t)
    requires FieldAt(t, path).Some?
    ensures ValueAt(v, path).Some?
    ensures Conforms(ValueAt(v, path).value, FieldAt(t, path).value.typ)
    decreases |path|
  {
    var k := path[0];
    if |path| > 1 {
      ValueAtConforms(v.items[k], t.fields[k].typ, path[1..]);
    } else {
      assert path[1..] == [];
    }
  }

  /** The tokens of a field's `sleepy` tag: `strings.Split(tag, ",")`. */
  function SleepyTokens(f: Field): seq<string>
  {
    Split(f.tag, ',')
  }
}
