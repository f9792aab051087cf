/** The recursive schema introspector and the path-based input validator of
    data_model.go: a `CallDataModel` records, for its input type, the index path of
    every field tagged `required` or `readonly`, and checks decoded payloads against
    those paths. */
module DataModel {
  import opened Wrappers
  import opened Strings
  import opened Reflect

  const SleepyRequired: string := "required"
  const SleepyReadOnly: string := "readonly"
  const SleepyWriteOnly: string := "writeonly"
  const SleepyHidden: string := "hidden"

  /** Documentation of a path or query variable. */
  datatype InputVar = InputVar(typ: string, name: string, desc: string, required: bool)

  /** The error `newRequestError(message, cause)` builds; its status code is set by
      code that is not part of this model. */
  datatype RequestError = RequestError(message: string, cause: string)

  /** How a call to `IdentifyFieldTags` ends: normally, by a Go panic (no input type,
      or a `pos` that does not resolve), or by `log.Fatal`. */
  datatype Outcome = Recorded | Panicked | Fatal(message: string)

  const NotAStructMessage: string := "The kind at pos is not a struct"
  const ValidationCause: string := "Failed while validating tags for the payload."

  function MissingFieldError(name: string): RequestError
  {
    RequestError("Required field: " + name + " is missing.", ValidationCause)
  }

  function ReadOnlySetError(name: string): RequestError
  {
    RequestError("Attempting to set read-only field: " + name + ".", ValidationCause)
  }

  /** The paths `identifyFieldTags` records for `token` while walking the first `n`
      fields of struct `t`, located at `pos`: per field, its own path once for every
      occurrence of `token` in its tag, then, for a struct-kind field, the paths found
      inside it. */
  function CollectUpTo(t: Type, n: nat, pos: seq<int>, token: string): seq<seq<int>>
    requires t.Struct? && n <= |t.fields|
    decreases t, 0, n
  {
    if n == 0 then []
    else
      var f := t.fields[n - 1];
      CollectUpTo(t, n - 1, pos, token)
      + Repeat(pos + [n - 1], Count(SleepyTokens(f), token))
      + (if f.typ.Struct? then Collect(f.typ, pos + [n - 1], token) else [])
  }

  /** All the paths recorded for `token` below the struct `t` located at `pos`. */
  function Collect(t: Type, pos: seq<int>, token: string): seq<seq<int>>
    requires t.Struct?
    decreases t, 1, 0
  {
    CollectUpTo(t, |t.fields|, pos, token)
  }

  /** Path `q` (relative to `t`) reaches, through struct-kind fields only, a field
      whose tag lists `token`. */
  predicate Tagged(t: Type, q: seq<int>, token: string)
    decreases |q|
  {
    t.Struct? && q != [] && 0 <= q[0] < |t.fields| &&
    if |q| == 1 then token in SleepyTokens(t.fields[q[0]])
    else Tagged(t.fields[q[0]].typ, q[1..], token)
  }

  /** `p` lies strictly below `pos`. */
  predicate Below(p: seq<int>, pos: seq<int>)
  {
    |p| > |pos| && p[..|pos|] == pos
  }

  /** Lexicographic order on paths in which a path precedes its own extensions:
      the order of a depth-first, pre-order walk in field-index order. */
  predicate Precedes(a: seq<int>, b: seq<int>)
  {
    (|a| <= |b| && a == b[..|a|]) ||
    (exists k :: 0 <= k < |a| && k < |b| && a[..k] == b[..k] && a[k] < b[k])
  }

  predicate PreOrdered(s: seq<seq<int>>)
  {
    forall i, j :: 0 <= i < j < |s| ==> Precedes(s[i], s[j])
  }

  /** Every recorded path lies below `pos`, one level down in a field with index below `n`. */
  lemma {:induction false} CollectUpToBelow(t: Type, n: nat, pos: seq<int>, token: string)
    requires t.Struct? && n <= |t.fields|
    ensures forall p :: p in CollectUpTo(t, n, pos, token) ==> Below(p, pos) && 0 <= p[|pos|] < n
    decreases t, 0, n
  {
    if n > 0 {
      var f := t.fields[n - 1];
      CollectUpToBelow(t, n - 1, pos, token);
      assert (pos + [n - 1])[..|pos|] == pos;
      if f.typ.Struct? {
        CollectBelow(f.typ, pos + [n - 1], token);
        forall p | p in Collect(f.typ, pos + [n - 1], token) ensures Below(p, pos) && p[|pos|] == n - 1 {
          assert p[..|pos| + 1] == pos + [n - 1];
          assert p[..|pos|] == p[..|pos| + 1][..|pos|];
        }
      }
    }
  }

  lemma {:induction false} CollectBelow(t: Type, pos: seq<int>, token: string)
    requires t.Struct?
    ensures forall p :: p in Collect(t, pos, token) ==> Below(p, pos)
    decreases t, 1, 0
  {
    CollectUpToBelow(t, |t.fields|, pos, token);
  }

  /** A path below `pos + [i]` lies below `pos`, at index `i`. */
  lemma BelowSnoc(p: seq<int>, pos: seq<int>, i: int)
    requires Below(p, pos + [i])
    ensures Below(p, pos) && p[|pos|] == i
  {
    assert p[..|pos| + 1] == pos + [i];
    assert p[..|pos|] == p[..|pos| + 1][..|pos|];
  }

  /** The paths recorded inside field `n - 1` all lie below it. */
  lemma NestedBelow(t: Type, n: nat, pos: seq<int>, token: string, p: seq<int>)
    requires t.Struct? && 0 < n <= |t.fields| && t.fields[n - 1].typ.Struct?
    requires p in Collect(t.fields[n - 1].typ, pos + [n - 1], token)
    ensures Below(p, pos + [n - 1]) && Below(p, pos) && p[|pos|] == n - 1
  {
    CollectBelow(t.fields[n - 1].typ, pos + [n - 1], token);
    BelowSnoc(p, pos, n - 1);
  }

  /** How `Tagged` reads one level down, at field `i`. */
  lemma TaggedStep(t: Type, p: seq<int>, pos: seq<int>, token: string)
    requires t.Struct? && Below(p, pos) && 0 <= p[|pos|] < |t.fields|
    ensures var i := p[|pos|];
      Tagged(t, p[|pos|..], token) <==>
        if |p| == |pos| + 1 then token in SleepyTokens(t.fields[i])
        else Below(p, pos + [i]) && Tagged(t.fields[i].typ, p[|pos| + 1..], token)
  {
    var q := p[|pos|..];
    assert q[0] == p[|pos|];
    assert q[1..] == p[|pos| + 1..];
    if |p| > |pos| + 1 {
      assert p[..|pos| + 1] == p[..|pos|] + [p[|pos|]];
    }
  }

  /** Field `n - 1`'s own entries and the entries inside it all sit at index `n - 1`. */
  lemma LastFieldEntries(t: Type, n: nat, pos: seq<int>, token: string, p: seq<int>)
    requires t.Struct? && 0 < n <= |t.fields|
    requires p in Repeat(pos + [n - 1], Count(SleepyTokens(t.fields[n - 1]), token))
          || (t.fields[n - 1].typ.Struct? && p in Collect(t.fields[n - 1].typ, pos + [n - 1], token))
    ensures Below(p, pos) && p[|pos|] == n - 1
  {
    if t.fields[n - 1].typ.Struct? && p in Collect(t.fields[n - 1].typ, pos + [n - 1], token) {
      NestedBelow(t, n, pos, token, p);
    } else {
      assert p == pos + [n - 1];
      assert p[..|pos|] == pos;
    }
  }

  /** Membership at field `n - 1` itself, given membership inside it. */
  lemma LastFieldMember(t: Type, n: nat, pos: seq<int>, token: string, p: seq<int>)
    requires t.Struct? && 0 < n <= |t.fields|
    requires Below(p, pos) && p[|pos|] == n - 1
    requires t.fields[n - 1].typ.Struct? ==>
      (p in Collect(t.fields[n - 1].typ, pos + [n - 1], token) <==>
       Below(p, pos + [n - 1]) && Tagged(t.fields[n - 1].typ, p[|pos + [n - 1]|..], token))
    ensures (p in Repeat(pos + [n - 1], Count(SleepyTokens(t.fields[n - 1]), token))
             || (t.fields[n - 1].typ.Struct? && p in Collect(t.fields[n - 1].typ, pos + [n - 1], token)))
            <==> Tagged(t, p[|pos|..], token)
  {
    var f := t.fields[n - 1];
    var here := pos + [n - 1];
    TaggedStep(t, p, pos, token);
    CountPositive(SleepyTokens(f), token);
    if |p| == |pos| + 1 {
      assert p == here by { assert p == p[..|pos|] + [p[|pos|]]; }
      if f.typ.Struct? {
        CollectBelow(f.typ, here, token);
      }
    } else {
      assert p !in Repeat(here, Count(SleepyTokens(f), token));
      assert p[|here|..] == p[|pos| + 1..];
    }
  }

  /** One step of the membership proof: from the answer for the first `n - 1` fields
      and for the inside of field `n - 1`, the answer for the first `n` fields. */
  lemma MemberStep(t: Type, n: nat, pos: seq<int>, token: string, p: seq<int>)
    requires t.Struct? && 0 < n <= |t.fields|
    requires p in CollectUpTo(t, n - 1, pos, token) <==>
             Below(p, pos) && p[|pos|] < n - 1 && Tagged(t, p[|pos|..], token)
    requires t.fields[n - 1].typ.Struct? ==>
      (p in Collect(t.fields[n - 1].typ, pos + [n - 1], token) <==>
       Below(p, pos + [n - 1]) && Tagged(t.fields[n - 1].typ, p[|pos + [n - 1]|..], token))
    ensures p in CollectUpTo(t, n, pos, token) <==>
            Below(p, pos) && p[|pos|] < n && Tagged(t, p[|pos|..], token)
  {
    var f := t.fields[n - 1];
    var here := pos + [n - 1];
    var own := Repeat(here, Count(SleepyTokens(f), token));
    var nested := if f.typ.Struct? then Collect(f.typ, here, token) else [];
    assert CollectUpTo(t, n, pos, token) == CollectUpTo(t, n - 1, pos, token) + own + nested;
    if p in own || p in nested {
      LastFieldEntries(t, n, pos, token, p);
    }
    if Below(p, pos) && p[|pos|] == n - 1 {
      LastFieldMember(t, n, pos, token, p);
    }
  }

  /** Tags are found at every depth, and only where they are: `p` is recorded exactly
      when it extends `pos` by a path that reaches a field tagged `token`, within the
      first `n` fields. */
  lemma {:induction false} CollectUpToMember(t: Type, n: nat, pos: seq<int>, token: string, p: seq<int>)
    requires t.Struct? && n <= |t.fields|
    ensures p in CollectUpTo(t, n, pos, token) <==>
            Below(p, pos) && p[|pos|] < n && Tagged(t, p[|pos|..], token)
    decreases t, 0, n
  {
    if n == 0 {
      CollectUpToBelow(t, 0, pos, token);
    } else {
      CollectUpToMember(t, n - 1, pos, token, p);
      if t.fields[n - 1].typ.Struct? {
        CollectMember(t.fields[n - 1].typ, pos + [n - 1], token, p);
      }
      MemberStep(t, n, pos, token, p);
    }
  }

  lemma {:induction false} CollectMember(t: Type, pos: seq<int>, token: string, p: seq<int>)
    requires t.Struct?
    ensures p in Collect(t, pos, token) <==> Below(p, pos) && Tagged(t, p[|pos|..], token)
    decreases t, 1, 0
  {
    CollectUpToMember(t, |t.fields|, pos, token, p);
  }

  lemma PreOrderedConcat(x: seq<seq<int>>, y: seq<seq<int>>)
    requires PreOrdered(x) && PreOrdered(y)
    requires forall a, b :: a in x && b in y ==> Precedes(a, b)
    ensures PreOrdered(x + y)
  {
    forall i, j | 0 <= i < j < |x + y| ensures Precedes((x + y)[i], (x + y)[j]) {
      if j < |x| {
        assert (x + y)[i] == x[i] && (x + y)[j] == x[j];
      } else if i >= |x| {
        assert (x + y)[i] == y[i - |x|] && (x + y)[j] == y[j - |x|];
      } else {
        assert (x + y)[i] in x && (x + y)[j] in y;
      }
    }
  }

  /** A field's own entries, then the entries inside it, are in pre-order. */
  lemma FieldPreOrdered(t: Type, n: nat, pos: seq<int>, token: string)
    requires t.Struct? && 0 < n <= |t.fields|
    requires t.fields[n - 1].typ.Struct? ==>
      PreOrdered(Collect(t.fields[n - 1].typ, pos + [n - 1], token))
    ensures var f := t.fields[n - 1];
      PreOrdered(Repeat(pos + [n - 1], Count(SleepyTokens(f), token))
                 + (if f.typ.Struct? then Collect(f.typ, pos + [n - 1], token) else []))
  {
    var f := t.fields[n - 1];
    var here := pos + [n - 1];
    var own := Repeat(here, Count(SleepyTokens(f), token));
    var nested := if f.typ.Struct? then Collect(f.typ, here, token) else [];
    if f.typ.Struct? {
      CollectBelow(f.typ, here, token);
    }
    assert PreOrdered(own) by {
      forall i, j | 0 <= i < j < |own| ensures Precedes(own[i], own[j]) {
        assert own[i] == here && own[j] == here;
        assert here == here[..|here|];
      }
    }
    forall a, b | a in own && b in nested ensures Precedes(a, b) {
      assert a == here;
      assert b[..|here|] == here;
    }
    PreOrderedConcat(own, nested);
  }

  /** Everything recorded before field `n - 1` precedes what is recorded at it. */
  lemma EarlierPrecedes(t: Type, n: nat, pos: seq<int>, token: string, a: seq<int>, b: seq<int>)
    requires t.Struct? && 0 < n <= |t.fields|
    requires a in CollectUpTo(t, n - 1, pos, token)
    requires b in Repeat(pos + [n - 1], Count(SleepyTokens(t.fields[n - 1]), token))
          || (t.fields[n - 1].typ.Struct? && b in Collect(t.fields[n - 1].typ, pos + [n - 1], token))
    ensures Precedes(a, b)
  {
    CollectUpToBelow(t, n - 1, pos, token);
    LastFieldEntries(t, n, pos, token, b);
    var k := |pos|;
    assert a[..k] == b[..k] && a[k] < b[k];
  }

  lemma EarlierPrecedesAll(t: Type, n: nat, pos: seq<int>, token: string)
    requires t.Struct? && 0 < n <= |t.fields|
    ensures var f := t.fields[n - 1];
      forall a, b :: a in CollectUpTo(t, n - 1, pos, token) &&
        b in Repeat(pos + [n - 1], Count(SleepyTokens(f), token))
             + (if f.typ.Struct? then Collect(f.typ, pos + [n - 1], token) else [])
        ==> Precedes(a, b)
  {
    var f := t.fields[n - 1];
    var own := Repeat(pos + [n - 1], Count(SleepyTokens(f), token));
    var nested := if f.typ.Struct? then Collect(f.typ, pos + [n - 1], token) else [];
    forall a, b | a in CollectUpTo(t, n - 1, pos, token) && b in own + nested
      ensures Precedes(a, b)
    {
      EarlierPrecedes(t, n, pos, token, a, b);
    }
  }

  lemma ConcatAssoc<T>(a: seq<T>, b: seq<T>, c: seq<T>)
    ensures a + b + c == a + (b + c)
  {
  }

  /** The traversal is depth-first pre-order in declaration order: a field's own path
      comes before the paths inside it, and fields come in index order. */
  lemma {:induction false} CollectUpToPreOrdered(t: Type, n: nat, pos: seq<int>, token: string)
    requires t.Struct? && n <= |t.fields|
    ensures PreOrdered(CollectUpTo(t, n, pos, token))
    decreases t, 0, n
  {
    if n > 0 {
      var f := t.fields[n - 1];
      var here := pos + [n - 1];
      var earlier := CollectUpTo(t, n - 1, pos, token);
      var own := Repeat(here, Count(SleepyTokens(f), token));
      var nested := if f.typ.Struct? then Collect(f.typ, here, token) else [];
      CollectUpToPreOrdered(t, n - 1, pos, token);
      if f.typ.Struct? {
        CollectPreOrdered(f.typ, here, token);
      }
      FieldPreOrdered(t, n, pos, token);
      EarlierPrecedesAll(t, n, pos, token);
      PreOrderedConcat(earlier, own + nested);
      ConcatAssoc(earlier, own, nested);
    }
  }

  lemma {:induction false} CollectPreOrdered(t: Type, pos: seq<int>, token: string)
    requires t.Struct?
    ensures PreOrdered(Collect(t, pos, token))
    decreases t, 1, 0
  {
    CollectUpToPreOrdered(t, |t.fields|, pos, token);
  }

  /** `isZero`: a value equals the zero value of its own type; leaf kinds and structs only. */
  function IsZero(x: Value): (r: bool)
    ensures r <==> AllZero(x)
  {
    ZeroLikeIff(x);
    x == ZeroLike(x)
  }

  /** Every path resolves in `payload`. */
  predicate Resolves(payload: Value, paths: seq<seq<int>>)
  {
    forall i :: 0 <= i < |paths| ==> ValueAt(payload, paths[i]).Some?
  }

  /** Every path names a field of `t`. */
  predicate NamesFields(t: Type, paths: seq<seq<int>>)
  {
    forall i :: 0 <= i < |paths| ==> FieldAt(t, paths[i]).Some?
  }

  /** The value at `path`, which resolves. */
  function At(payload: Value, path: seq<int>): Value
    requires ValueAt(payload, path).Some?
  {
    ValueAt(payload, path).value
  }

  /** The first index whose value's zeroness is `zero`; `None` if there is none. */
  function FirstWhere(payload: Value, paths: seq<seq<int>>, zero: bool): (k: Option<nat>)
    requires Resolves(payload, paths)
    ensures k.Some? ==> k.value < |paths| && IsZero(At(payload, paths[k.value])) == zero
    ensures k.Some? ==> forall j :: 0 <= j < k.value ==> IsZero(At(payload, paths[j])) != zero
    ensures k.None? <==> forall j :: 0 <= j < |paths| ==> IsZero(At(payload, paths[j])) != zero
  {
    if paths == [] then None
    else if IsZero(At(payload, paths[0])) == zero then Some(0)
    else
      assert Resolves(payload, paths[1..]) by {
        forall i | 0 <= i < |paths| - 1 ensures ValueAt(payload, paths[1..][i]).Some? {
          assert paths[1..][i] == paths[i + 1];
        }
      }
      match FirstWhere(payload, paths[1..], zero)
      case None => None
      case Some(k) => Some(k + 1)
  }

  /** The first index with the wanted zeroness is the one `FirstWhere` finds. */
  lemma FirstWhereAt(payload: Value, paths: seq<seq<int>>, zero: bool, i: nat)
    requires Resolves(payload, paths) && i < |paths|
    requires IsZero(At(payload, paths[i])) == zero
    requires forall j :: 0 <= j < i ==> IsZero(At(payload, paths[j])) != zero
    ensures FirstWhere(payload, paths, zero) == Some(i)
  {
    assert FirstWhere(payload, paths, zero).Some?;
  }

  lemma AppendAssoc(a: seq<seq<int>>, b: seq<seq<int>>, c: seq<seq<int>>, d: seq<seq<int>>)
    ensures a + (b + c + d) == a + b + c + d
  {
  }

  /** The type-side half of `callDataModel`, with the four field-path sets `identifyFieldTags`
      fills in. */
  class CallDataModel {
    var bodyIn: Option<Type>
    var requiredFields: seq<seq<int>>
    var roFields: seq<seq<int>>
    var woFields: seq<seq<int>>
    var hiddenFields: seq<seq<int>>
    var bodyOut: Option<Type>
    var pathVarsDoc: seq<InputVar>
    var queryVarsDoc: seq<InputVar>

    /** `callDataModel{bodyIn: in, bodyOut: out}`: every path set empty. */
    constructor (bodyIn: Option<Type>, bodyOut: Option<Type>)
      ensures this.bodyIn == bodyIn && this.bodyOut == bodyOut
      ensures requiredFields == [] && roFields == [] && woFields == [] && hiddenFields == []
      ensures pathVarsDoc == [] && queryVarsDoc == []
    {
      this.bodyIn := bodyIn;
      this.bodyOut := bodyOut;
      requiredFields, roFields, woFields, hiddenFields := [], [], [], [];
      pathVarsDoc, queryVarsDoc := [], [];
    }

    /** The type `identifyFieldTags(pos)` starts from, or `None` where Go panics. */
    function TypeAtPos(pos: seq<int>): Option<Type>
      reads this
    {
      if bodyIn.None? then None else TypeAt(bodyIn.value, pos)
    }

    /** Walks the struct found at `pos` and appends, in pre-order, the path of every
        field tagged `required` to `requiredFields` and of every field tagged
        `readonly` to `roFields`; every other token is ignored. A type at `pos` that is
        not a struct is fatal and records nothing. */
    method IdentifyFieldTags(pos: seq<int>) returns (outcome: Outcome)
      modifies this
      ensures bodyIn == old(bodyIn) && bodyOut == old(bodyOut)
      ensures woFields == old(woFields) && hiddenFields == old(hiddenFields)
      ensures pathVarsDoc == old(pathVarsDoc) && queryVarsDoc == old(queryVarsDoc)
      ensures outcome.Recorded? <==> TypeAtPos(pos).Some? && TypeAtPos(pos).value.Struct?
      ensures outcome.Panicked? <==> TypeAtPos(pos).None?
      ensures outcome.Fatal? ==> outcome.message == NotAStructMessage
      ensures outcome.Recorded? ==>
        requiredFields == old(requiredFields) + Collect(TypeAtPos(pos).value, pos, SleepyRequired) &&
        roFields == old(roFields) + Collect(TypeAtPos(pos).value, pos, SleepyReadOnly)
      ensures !outcome.Recorded? ==>
        requiredFields == old(requiredFields) && roFields == old(roFields)
      decreases if TypeAtPos(pos).Some? then TypeAtPos(pos).value else Leaf(StringKind)
    {
      if bodyIn.None? {
        return Panicked;
      }
      var found := TypeAt(bodyIn.value, pos);
      if found.None? {
        return Panicked;
      }
      var curType := found.value;
      if !curType.Struct? {
        return Fatal(NotAStructMessage);
      }
      var fields := curType.fields;
      ghost var req0, ro0 := requiredFields, roFields;
      ghost var doneReq: seq<seq<int>>, doneRo: seq<seq<int>> := [], [];
      var curPos := 0;
      while curPos < |fields|
        invariant 0 <= curPos <= |fields|
        invariant bodyIn == old(bodyIn) && bodyOut == old(bodyOut)
        invariant woFields == old(woFields) && hiddenFields == old(hiddenFields)
        invariant pathVarsDoc == old(pathVarsDoc) && queryVarsDoc == old(queryVarsDoc)
        invariant doneReq == CollectUpTo(curType, curPos, pos, SleepyRequired)
        invariant doneRo == CollectUpTo(curType, curPos, pos, SleepyReadOnly)
        invariant requiredFields == req0 + doneReq
        invariant roFields == ro0 + doneRo
      {
        var here := pos + [curPos];
        var tags := SleepyTokens(fields[curPos]);
        RecordSleepyTokens(here, tags);
        ghost var ownReq, ownRo := Repeat(here, Count(tags, SleepyRequired)), Repeat(here, Count(tags, SleepyReadOnly));
        ghost var nestedReq: seq<seq<int>>, nestedRo: seq<seq<int>> := [], [];
        if fields[curPos].typ.Struct? {
          TypeAtSnoc(bodyIn.value, pos, fields, curPos);
          nestedReq, nestedRo := Collect(fields[curPos].typ, here, SleepyRequired), Collect(fields[curPos].typ, here, SleepyReadOnly);
          var _ := IdentifyFieldTags(here);
        }
        assert CollectUpTo(curType, curPos + 1, pos, SleepyRequired) == doneReq + ownReq + nestedReq;
        assert CollectUpTo(curType, curPos + 1, pos, SleepyReadOnly) == doneRo + ownRo + nestedRo;
        AppendAssoc(req0, doneReq, ownReq, nestedReq);
        AppendAssoc(ro0, doneRo, ownRo, nestedRo);
        doneReq, doneRo := doneReq + ownReq + nestedReq, doneRo + ownRo + nestedRo;
        curPos := curPos + 1;
      }
      return Recorded;
    }

    /** The `range tags` loop of `identifyFieldTags`: appends `here` to `requiredFields`
        once per `required` token and to `roFields` once per `readonly` token; every
        other token, `writeonly` and `hidden` included, is ignored. */
    method RecordSleepyTokens(here: seq<int>, tags: seq<string>)
      modifies this`requiredFields, this`roFields
      ensures requiredFields == old(requiredFields) + Repeat(here, Count(tags, SleepyRequired))
      ensures roFields == old(roFields) + Repeat(here, Count(tags, SleepyReadOnly))
    {
      var k := 0;
      while k < |tags|
        invariant 0 <= k <= |tags|
        invariant requiredFields == old(requiredFields) + Repeat(here, Count(tags[..k], SleepyRequired))
        invariant roFields == old(roFields) + Repeat(here, Count(tags[..k], SleepyReadOnly))
      {
        assert tags[..k + 1][..k] == tags[..k];
        if tags[k] == SleepyRequired {
          requiredFields := requiredFields + [here];
        } else if tags[k] == SleepyReadOnly {
          roFields := roFields + [here];
        }
        k := k + 1;
      }
      assert tags[..k] == tags;
    }

    /** data_model.go's `validateTagsIn`, as written: the first required path whose value
        is zero is reported as missing; only when there is none are the read-only paths
        examined, and the first read-only path whose value is ZERO is reported. */
    method ValidateTagsIn(payload: Value) returns (err: Option<RequestError>)
      requires bodyIn.Some?
      requires NamesFields(bodyIn.value, requiredFields) && Resolves(payload, requiredFields)
      requires NamesFields(bodyIn.value, roFields) && Resolves(payload, roFields)
      ensures err.None? <==>
        (forall j :: 0 <= j < |requiredFields| ==> !IsZero(At(payload, requiredFields[j]))) &&
        (forall j :: 0 <= j < |roFields| ==> !IsZero(At(payload, roFields[j])))
      ensures match FirstWhere(payload, requiredFields, true)
        case Some(k) => err == Some(MissingFieldError(FieldAt(bodyIn.value, requiredFields[k]).value.name))
        case None =>
          match FirstWhere(payload, roFields, true)
          case Some(k) => err == Some(ReadOnlySetError(FieldAt(bodyIn.value, roFields[k]).value.name))
          case None => err == None
    {
      var mType := bodyIn.value;
      var i := 0;
      while i < |requiredFields|
        invariant 0 <= i <= |requiredFields|
        invariant forall j :: 0 <= j < i ==> !IsZero(At(payload, requiredFields[j]))
      {
        var reqField := requiredFields[i];
        if IsZero(ValueAt(payload, reqField).value) {
          FirstWhereAt(payload, requiredFields, true, i);
          return Some(MissingFieldError(FieldAt(mType, reqField).value.name));
        }
        i := i + 1;
      }
      assert FirstWhere(payload, requiredFields, true).None?;
      i := 0;
      while i < |roFields|
        invariant 0 <= i <= |roFields|
        invariant forall j :: 0 <= j < i ==> !IsZero(At(payload, roFields[j]))
      {
        var roField := roFields[i];
        if IsZero(ValueAt(payload, roField).value) {
          FirstWhereAt(payload, roFields, true, i);
          return Some(ReadOnlySetError(FieldAt(mType, roField).value.name));
        }
        i := i + 1;
      }
      assert FirstWhere(payload, roFields, true).None?;
      return None;
    }

    /** `validateTagsIn` with the read-only test the error message describes: a
        read-only path is a violation when its value is NOT zero. The required paths
        are still all checked first. */
    method ValidateTagsInCorrected(payload: Value) returns (err: Option<RequestError>)
      requires bodyIn.Some?
      requires NamesFields(bodyIn.value, requiredFields) && Resolves(payload, requiredFields)
      requires NamesFields(bodyIn.value, roFields) && Resolves(payload, roFields)
      ensures err.None? <==>
        (forall j :: 0 <= j < |requiredFields| ==> !IsZero(At(payload, requiredFields[j]))) &&
        (forall j :: 0 <= j < |roFields| ==> IsZero(At(payload, roFields[j])))
      ensures match FirstWhere(payload, requiredFields, true)
        case Some(k) => err == Some(MissingFieldError(FieldAt(bodyIn.value, requiredFields[k]).value.name))
        case None =>
          match FirstWhere(payload, roFields, false)
          case Some(k) => err == Some(ReadOnlySetError(FieldAt(bodyIn.value, roFields[k]).value.name))
          case None => err == None
    {
      var mType := bodyIn.value;
      var i := 0;
      while i < |requiredFields|
        invariant 0 <= i <= |requiredFields|
        invariant forall j :: 0 <= j < i ==> !IsZero(At(payload, requiredFields[j]))
      {
        var reqField := requiredFields[i];
        if IsZero(ValueAt(payload, reqField).value) {
          FirstWhereAt(payload, requiredFields, true, i);
          return Some(MissingFieldError(FieldAt(mType, reqField).value.name));
        }
        i := i + 1;
      }
      assert FirstWhere(payload, requiredFields, true).None?;
      i := 0;
      while i < |roFields|
        invariant 0 <= i <= |roFields|
        invariant forall j :: 0 <= j < i ==> IsZero(At(payload, roFields[j]))
      {
        var roField := roFields[i];
        if !IsZero(ValueAt(payload, roField).value) {
          FirstWhereAt(payload, roFields, false, i);
          return Some(ReadOnlySetError(FieldAt(mType, roField).value.name));
        }
        i := i + 1;
      }
      assert FirstWhere(payload, roFields, false).None?;
      return None;
    }
  }

  /** What introspection records can be validated: every recorded path names a field
      of the input type and resolves in every decoded payload of that type. */
  lemma RecordedPathsResolve(t: Type, token: string, payload: Value)
    requires t.Struct? && Conforms(payload, t)
    ensures NamesFields(t, Collect(t, [], token))
    ensures Resolves(payload, Collect(t, [], token))
  {
    var paths := Collect(t, [], token);
    forall i | 0 <= i < |paths| ensures FieldAt(t, paths[i]).Some? && ValueAt(payload, paths[i]).Some? {
      CollectMember(t, [], token, paths[i]);
      TaggedNamesField(t, paths[i], token);
      ValueAtConforms(payload, t, paths[i]);
    }
  }

  lemma {:induction false} TaggedNamesField(t: Type, q: seq<int>, token: string)
    requires Tagged(t, q, token)
    ensures FieldAt(t, q).Some? && token in SleepyTokens(FieldAt(t, q).value)
    decreases |q|
  {
    if |q| > 1 {
      TaggedNamesField(t.fields[q[0]].typ, q[1..], token);
    }
  }
}
