/** The AMF serializer's type-directed dispatch: which `Output` operation a
    value is written with, and whether the output is switched to AMF3 first.
    A Java object is modelled by the set of concrete classes and interfaces it
    is an instance of (`kinds`), the elements it holds when it is a vector, a
    list, a collection, an iterator or an object array, and its text when it
    is a String or an Enum constant. */
module AmfSerializer {

  import opened JavaLang

  /** The classes and interfaces the dispatch tests for. Supertypes that the
      tests also name (Number, List, Collection, Map) are unions of these. */
  datatype Kind =
    | ExternalizableK | ByteArrayK
    | VectorK | OtherListK | OtherCollectionK | IteratorK | PrimitiveArrayK | ObjectArrayK
    | BooleanK | IntegerK | LongK | DoubleK | OtherNumberK | StringK | EnumK | DateK
    | DocumentK | ObjectMapK | BeanMapK | OtherMapK | RecordSetK

  datatype Obj =
    | Null
    | Ref(kinds: set<Kind>, elements: seq<Obj>, text: string)

  /** `instanceof Number`. */
  predicate IsNumber(kinds: set<Kind>) {
    IntegerK in kinds || LongK in kinds || DoubleK in kinds || OtherNumberK in kinds
  }

  /** `instanceof List`: a Vector is a List. */
  predicate IsList(kinds: set<Kind>) {
    VectorK in kinds || OtherListK in kinds
  }

  /** `instanceof Collection`: a List is a Collection. */
  predicate IsCollection(kinds: set<Kind>) {
    IsList(kinds) || OtherCollectionK in kinds
  }

  /** `instanceof Map`. */
  predicate IsMap(kinds: set<Kind>) {
    ObjectMapK in kinds || BeanMapK in kinds || OtherMapK in kinds
  }

  /** The `Output` operations, by overload. */
  datatype Write =
    | WriteNull
    | WriteBoolean(o: Obj)
    | WriteNumber(o: Obj)
    | WriteString(text: string)
    | WriteDate(o: Obj)
    | WriteObject(o: Obj)                    // writeObject(Object)
    | WriteByteArray(o: Obj)
    | WriteVectorObject(o: Obj)
    | WriteVectorInt(o: Obj)
    | WriteVectorUInt(o: Obj)
    | WriteVectorNumber(o: Obj)
    | WriteCollection(elements: seq<Obj>)    // writeArray(Collection)
    | WriteObjectArray(elements: seq<Obj>)   // writeArray(Object[])
    | WritePrimitiveArray(o: Obj)            // writeArray(Object), for arrays of a primitive type
    | WriteListAsMap(elements: seq<Obj>)     // writeMap(Collection)
    | WriteXML(o: Obj)
    | WriteCustom(o: Obj)
    | WriteObjectMap(o: Obj)                 // writeObject(Map)
    | WriteMap(o: Obj)                       // writeMap(Map)
    | WriteRecordSet(o: Obj)

  /** The operation chosen for a value, and whether `enforceAMF3` is called before it. */
  datatype Action = Action(enforceAmf3: bool, write: Write)

  // ---------------------------------------------------------------------------
  // Basic values

  /** A null, Boolean, Number, String, Enum or Date, checked in that order; None
      (the method's false) for anything else. */
  function WriteBasic(o: Obj): (w: Option<Write>)
    ensures o.Null? <==> w == Some(WriteNull)
    ensures o.Ref? && BooleanK in o.kinds ==> w == Some(WriteBoolean(o))
    ensures o.Ref? && BooleanK !in o.kinds && IsNumber(o.kinds) ==> w == Some(WriteNumber(o))
    ensures o.Ref? && BooleanK !in o.kinds && !IsNumber(o.kinds) && (StringK in o.kinds || EnumK in o.kinds) ==>
              w == Some(WriteString(o.text))
    ensures o.Ref? && DateK in o.kinds && (BooleanK !in o.kinds && StringK !in o.kinds && EnumK !in o.kinds) && !IsNumber(o.kinds) ==>
              w == Some(WriteDate(o))
    ensures w.None? <==> o.Ref? && (BooleanK !in o.kinds && StringK !in o.kinds && EnumK !in o.kinds && DateK !in o.kinds) && !IsNumber(o.kinds)
    // a Boolean is never written as a number
    ensures w.Some? && w.value.WriteNumber? ==> BooleanK !in o.kinds
  {
    if o.Null? then Some(WriteNull)
    else if BooleanK in o.kinds then Some(WriteBoolean(o))
    else if IsNumber(o.kinds) then Some(WriteNumber(o))
    else if StringK in o.kinds then Some(WriteString(o.text))
    else if EnumK in o.kinds then Some(WriteString(o.text))
    else if DateK in o.kinds then Some(WriteDate(o))
    else None
  }

  // ---------------------------------------------------------------------------
  // The vector census

  /** Which counter a vector element increments. */
  datatype ElementClass = IntE | LongE | DubE | NanE

  /** Integer first, then Long, then any other Number; null and everything else is not a number. */
  function Classify(o: Obj): (c: ElementClass)
    ensures c == IntE <==> o.Ref? && IntegerK in o.kinds
    ensures c == LongE <==> o.Ref? && IntegerK !in o.kinds && LongK in o.kinds
    ensures c == DubE <==> o.Ref? && (IntegerK !in o.kinds && LongK !in o.kinds) && IsNumber(o.kinds)
    ensures c == NanE <==> o.Null? || !IsNumber(o.kinds)
  {
    if o.Null? then NanE
    else if IntegerK in o.kinds then IntE
    else if LongK in o.kinds then LongE
    else if IsNumber(o.kinds) then DubE
    else NanE
  }

  /** The number of elements of `s` of class `c`. */
  function CountOf(s: seq<Obj>, c: ElementClass): (n: nat)
    ensures n <= |s|
  {
    if |s| == 0 then 0
    else CountOf(s[..|s| - 1], c) + (if Classify(s[|s| - 1]) == c then 1 else 0)
  }

  /** A count is positive exactly when some element is of that class. */
  lemma {:induction false} CountPositiveIff(s: seq<Obj>, c: ElementClass)
    ensures CountOf(s, c) > 0 <==> exists i :: 0 <= i < |s| && Classify(s[i]) == c
  {
    if |s| > 0 {
      var init := s[..|s| - 1];
      CountPositiveIff(init, c);
      if CountOf(init, c) > 0 {
        var i :| 0 <= i < |init| && Classify(init[i]) == c;
        assert s[i] == init[i];
      }
      if exists i :: 0 <= i < |s| && Classify(s[i]) == c {
        var i :| 0 <= i < |s| && Classify(s[i]) == c;
        if i < |s| - 1 {
          assert init[i] == s[i];
        }
      }
    }
  }

  /** Every element increments exactly one counter. */
  lemma {:induction false} CensusTotal(s: seq<Obj>)
    ensures CountOf(s, IntE) + CountOf(s, LongE) + CountOf(s, DubE) + CountOf(s, NanE) == |s|
  {
    if |s| > 0 {
      CensusTotal(s[..|s| - 1]);
    }
  }

  datatype Census = Census(ints: nat, longs: nat, dubs: nat, nans: nat)

  function CensusOf(s: seq<Obj>): (c: Census)
    ensures c.ints + c.longs + c.dubs + c.nans == |s|
  {
    CensusTotal(s);
    Census(CountOf(s, IntE), CountOf(s, LongE), CountOf(s, DubE), CountOf(s, NanE))
  }

  /** The counting loop of the vector path. */
  method VectorCensus(elements: seq<Obj>) returns (c: Census)
    ensures c == CensusOf(elements)
  {
    var ints, longs, dubs, nans := 0, 0, 0, 0;
    for i := 0 to |elements|
      invariant ints == CountOf(elements[..i], IntE) && longs == CountOf(elements[..i], LongE)
      invariant dubs == CountOf(elements[..i], DubE) && nans == CountOf(elements[..i], NanE)
    {
      assert elements[..i + 1][..i] == elements[..i];
      var o := elements[i];
      if o.Ref? && IntegerK in o.kinds {
        ints := ints + 1;
      } else if o.Ref? && LongK in o.kinds {
        longs := longs + 1;
      } else if o.Ref? && (IsNumber(o.kinds) || DoubleK in o.kinds) {
        dubs := dubs + 1;
      } else {
        nans := nans + 1;
      }
    }
    assert elements[..|elements|] == elements;
    c := Census(ints, longs, dubs, nans);
  }

  /** The vector path: objects when any element is not a number; ints when
      every element is an Integer (an empty vector included); unsigned ints
      when every element is a Long; numbers for any other mix. Objects and
      numbers first cast the output to an AMF3 output to switch it to AMF3,
      which fails with a ClassCastException unless `amf3Output` says it is one. */
  function VectorChoice(v: Obj, amf3Output: bool): (r: Result<Action>)
    requires v.Ref?
    ensures r == Ok(Action(true, WriteVectorObject(v))) <==>
              amf3Output && exists i :: 0 <= i < |v.elements| && Classify(v.elements[i]) == NanE
    ensures r == Ok(Action(false, WriteVectorInt(v))) <==>
              forall i :: 0 <= i < |v.elements| ==> Classify(v.elements[i]) == IntE
    ensures r == Ok(Action(false, WriteVectorUInt(v))) <==>
              |v.elements| > 0 && forall i :: 0 <= i < |v.elements| ==> Classify(v.elements[i]) == LongE
    ensures r == Ok(Action(true, WriteVectorNumber(v))) <==>
              && amf3Output
              && (forall i :: 0 <= i < |v.elements| ==> Classify(v.elements[i]) != NanE)
              && ((exists i :: 0 <= i < |v.elements| && Classify(v.elements[i]) == DubE)
                  || ((exists i :: 0 <= i < |v.elements| && Classify(v.elements[i]) == IntE)
                      && (exists i :: 0 <= i < |v.elements| && Classify(v.elements[i]) == LongE)))
    ensures r.Err? <==>
              && !amf3Output
              && !(forall i :: 0 <= i < |v.elements| ==> Classify(v.elements[i]) == IntE)
              && !(|v.elements| > 0 && forall i :: 0 <= i < |v.elements| ==> Classify(v.elements[i]) == LongE)
    ensures r.Err? ==> r.failure == ClassCast
  {
    var c := CensusOf(v.elements);
    CountPositiveIff(v.elements, IntE);
    CountPositiveIff(v.elements, LongE);
    CountPositiveIff(v.elements, DubE);
    CountPositiveIff(v.elements, NanE);
    if c.nans > 0 then
      if amf3Output then Ok(Action(true, WriteVectorObject(v))) else Err(ClassCast)
    else if c.dubs == 0 && c.longs == 0 then Ok(Action(false, WriteVectorInt(v)))
    else if c.dubs == 0 && c.ints == 0 then Ok(Action(false, WriteVectorUInt(v)))
    else if amf3Output then Ok(Action(true, WriteVectorNumber(v))) else Err(ClassCast)
  }

  method SerializeVector(v: Obj, amf3Output: bool) returns (r: Result<Action>)
    requires v.Ref?
    ensures r == VectorChoice(v, amf3Output)
  {
    var c := VectorCensus(v.elements);
    if c.nans > 0 {
      if !amf3Output {
        return Err(ClassCast);
      }
      r := Ok(Action(true, WriteVectorObject(v)));
    } else if c.dubs == 0 && c.longs == 0 {
      r := Ok(Action(false, WriteVectorInt(v)));
    } else if c.dubs == 0 && c.ints == 0 {
      r := Ok(Action(false, WriteVectorUInt(v)));
    } else {
      if !amf3Output {
        return Err(ClassCast);
      }
      r := Ok(Action(true, WriteVectorNumber(v)));
    }
  }

  // ---------------------------------------------------------------------------
  // Lists

  /** The number of null elements of `s`. */
  function NullCount(s: seq<Obj>): (n: nat)
    ensures n <= |s|
  {
    if |s| == 0 then 0
    else NullCount(s[..|s| - 1]) + (if s[|s| - 1].Null? then 1 else 0)
  }

  /** No nulls counts 0; all nulls counts every element. */
  lemma {:induction false} NullCountExtremes(s: seq<Obj>)
    ensures NullCount(s) == 0 <==> forall i :: 0 <= i < |s| ==> s[i] != Null
    ensures NullCount(s) == |s| <==> forall i :: 0 <= i < |s| ==> s[i] == Null
  {
    if |s| > 0 {
      var init := s[..|s| - 1];
      NullCountExtremes(init);
      assert forall i :: 0 <= i < |init| ==> init[i] == s[i];
    }
  }

  /** An empty list is written as an empty object array, a list under 100
      elements as an array, and a longer one as a map exactly when more than
      80% of its elements are null (5 * nulls > 4 * size is that comparison
      in integers). */
  function ListChoice(list: seq<Obj>): (w: Write)
    ensures |list| == 0 ==> w == WriteObjectArray([])
    ensures 0 < |list| < 100 ==> w == WriteCollection(list)
    ensures |list| >= 100 ==> (w == WriteListAsMap(list) <==> 5 * NullCount(list) > 4 * |list|)
    ensures |list| >= 100 && 5 * NullCount(list) <= 4 * |list| ==> w == WriteCollection(list)
  {
    if |list| == 0 then WriteObjectArray([])
    else if |list| < 100 then WriteCollection(list)
    else if 5 * NullCount(list) > 4 * |list| then WriteListAsMap(list)
    else WriteCollection(list)
  }

  /** A long list of nulls only is written as a map; a long list without nulls as an array. */
  lemma LongListExtremes(list: seq<Obj>)
    requires |list| >= 100
    ensures (forall i :: 0 <= i < |list| ==> list[i] == Null) ==> ListChoice(list) == WriteListAsMap(list)
    ensures (forall i :: 0 <= i < |list| ==> list[i] != Null) ==> ListChoice(list) == WriteCollection(list)
  {
    NullCountExtremes(list);
  }

  method CountNulls(list: seq<Obj>) returns (n: nat)
    ensures n == NullCount(list)
  {
    n := 0;
    for i := 0 to |list|
      invariant n == NullCount(list[..i])
    {
      assert list[..i + 1][..i] == list[..i];
      if list[i] == Null {
        n := n + 1;
      }
    }
    assert list[..|list|] == list;
  }

  method WriteList(list: seq<Obj>) returns (w: Write)
    ensures w == ListChoice(list)
  {
    if |list| == 0 {
      return WriteObjectArray([]);
    }
    if |list| < 100 {
      return WriteCollection(list);
    }
    var nullCount := CountNulls(list);
    if 5 * nullCount > 4 * |list| {
      w := WriteListAsMap(list);
    } else {
      w := WriteCollection(list);
    }
  }

  /** A List goes to the list path; anything else is not written here. */
  function WriteListType(o: Obj): (w: Option<Write>)
    ensures w.Some? <==> o.Ref? && IsList(o.kinds)
    ensures w.Some? ==> w.value == ListChoice(o.elements)
  {
    if o.Ref? && IsList(o.kinds) then Some(ListChoice(o.elements)) else None
  }

  // ---------------------------------------------------------------------------
  // Arrays, collections and iterators

  /** A Collection, an Iterator (drained into a list), an array of a primitive
      type, or an object array; anything else is not written here. On null the
      array test dereferences the value. */
  function WriteArrayType(o: Obj): (r: Result<Option<Write>>)
    ensures o.Null? <==> r == Err(NullPointer)
    ensures o.Ref? && IsCollection(o.kinds) ==> r == Ok(Some(WriteCollection(o.elements)))
    ensures o.Ref? && !IsCollection(o.kinds) && IteratorK in o.kinds ==> r == Ok(Some(WriteCollection(o.elements)))
    ensures o.Ref? && !IsCollection(o.kinds) && IteratorK !in o.kinds && PrimitiveArrayK in o.kinds ==>
              r == Ok(Some(WritePrimitiveArray(o)))
    ensures o.Ref? && !IsCollection(o.kinds) && (IteratorK !in o.kinds && PrimitiveArrayK !in o.kinds) && ObjectArrayK in o.kinds ==>
              r == Ok(Some(WriteObjectArray(o.elements)))
    ensures r == Ok(None) <==> o.Ref? && !IsCollection(o.kinds) && (IteratorK !in o.kinds && PrimitiveArrayK !in o.kinds && ObjectArrayK !in o.kinds)
  {
    if o.Null? then Err(NullPointer)
    else if IsCollection(o.kinds) then Ok(Some(WriteCollection(o.elements)))
    else if IteratorK in o.kinds then Ok(Some(WriteCollection(o.elements)))
    else if PrimitiveArrayK in o.kinds then Ok(Some(WritePrimitiveArray(o)))
    else if ObjectArrayK in o.kinds then Ok(Some(WriteObjectArray(o.elements)))
    else Ok(None)
  }

  /** A Java iterator over what remains of its elements. */
  class ObjIterator {
    var remaining: seq<Obj>

    constructor (elements: seq<Obj>)
      ensures remaining == elements
    {
      remaining := elements;
    }

    predicate HasNext()
      reads this
    {
      |remaining| > 0
    }

    method Next() returns (o: Obj)
      requires HasNext()
      modifies this
      ensures o == old(remaining)[0] && remaining == old(remaining)[1..]
    {
      o := remaining[0];
      remaining := remaining[1..];
    }
  }

  /** Drains the iterator into a list, in order, and writes the list as an
      array: the operation `WriteArrayType` chooses for an iterator over the
      same elements. */
  method WriteIterator(it: ObjIterator) returns (w: Write)
    modifies it
    ensures w == WriteCollection(old(it.remaining))
    ensures it.remaining == []
  {
    var list: seq<Obj> := [];
    while it.HasNext()
      invariant old(it.remaining) == list + it.remaining
      decreases |it.remaining|
    {
      var o := it.Next();
      list := list + [o];
    }
    w := WriteCollection(list);
  }

  // ---------------------------------------------------------------------------
  // XML, custom and object types

  /** A Document is written as XML; anything else is not written here. */
  function WriteXmlType(o: Obj): (w: Option<Write>)
    ensures w.Some? <==> o.Ref? && DocumentK in o.kinds
    ensures w.Some? ==> w.value == WriteXML(o)
  {
    if o.Ref? && DocumentK in o.kinds then Some(WriteXML(o)) else None
  }

  /** A value the output calls custom (`isCustom`) is written as custom data. */
  function WriteCustomType(o: Obj, isCustom: Obj -> bool): (w: Option<Write>)
    ensures w.Some? <==> isCustom(o)
    ensures w.Some? ==> w.value == WriteCustom(o)
  {
    if isCustom(o) then Some(WriteCustom(o)) else None
  }

  /** An ObjectMap or BeanMap is written as an object map, any other Map as a
      map, a RecordSet as a record set, and everything else as an object: this
      step always writes something. */
  function WriteObjectType(o: Obj): (w: Write)
    ensures o.Ref? && (ObjectMapK in o.kinds || BeanMapK in o.kinds) <==> w == WriteObjectMap(o)
    ensures w == WriteMap(o) <==> o.Ref? && OtherMapK in o.kinds && ObjectMapK !in o.kinds && BeanMapK !in o.kinds
    ensures w == WriteRecordSet(o) <==> o.Ref? && !IsMap(o.kinds) && RecordSetK in o.kinds
    ensures w == WriteObject(o) <==> o.Null? || (!IsMap(o.kinds) && RecordSetK !in o.kinds)
  {
    if o.Ref? && (ObjectMapK in o.kinds || BeanMapK in o.kinds) then WriteObjectMap(o)
    else if o.Ref? && IsMap(o.kinds) then WriteMap(o)
    else if o.Ref? && RecordSetK in o.kinds then WriteRecordSet(o)
    else WriteObject(o)
  }

  /** The complex path: list, array or collection, XML, custom, object, in
      that order. It writes every non-null value. */
  function WriteComplex(o: Obj, isCustom: Obj -> bool): (r: Result<Write>)
    ensures o.Null? ==> r == Err(NullPointer)
    ensures o.Ref? ==> r.Ok?
    ensures WriteListType(o).Some? ==> r == Ok(WriteListType(o).value)
    ensures WriteListType(o).None? && WriteArrayType(o).Ok? && WriteArrayType(o).value.Some? ==>
              r == Ok(WriteArrayType(o).value.value)
    ensures WriteListType(o).None? && WriteArrayType(o) == Ok(None) && WriteXmlType(o).Some? ==>
              r == Ok(WriteXML(o))
    ensures WriteListType(o).None? && WriteArrayType(o) == Ok(None) && WriteXmlType(o).None? && isCustom(o) ==>
              r == Ok(WriteCustom(o))
    ensures WriteListType(o).None? && WriteArrayType(o) == Ok(None) && WriteXmlType(o).None? && !isCustom(o) ==>
              r == Ok(WriteObjectType(o))
  {
    var list := WriteListType(o);
    if list.Some? then Ok(list.value)
    else
      var arrayType := WriteArrayType(o);
      if arrayType.Err? then Err(arrayType.failure)
      else if arrayType.value.Some? then Ok(arrayType.value.value)
      else
        var xml := WriteXmlType(o);
        if xml.Some? then Ok(xml.value)
        else
          var custom := WriteCustomType(o, isCustom);
          if custom.Some? then Ok(custom.value)
          else Ok(WriteObjectType(o))
  }

  /** A map that is no list, collection, iterator, array or document, and is
      not custom, reaches the object step. */
  lemma PlainMapsReachObjectStep(o: Obj, isCustom: Obj -> bool)
    requires o.Ref? && IsMap(o.kinds) && !isCustom(o)
    requires !IsCollection(o.kinds) && (IteratorK !in o.kinds && PrimitiveArrayK !in o.kinds && ObjectArrayK !in o.kinds && DocumentK !in o.kinds)
    ensures WriteComplex(o, isCustom) == Ok(if ObjectMapK in o.kinds || BeanMapK in o.kinds then WriteObjectMap(o) else WriteMap(o))
  {
  }

  // ---------------------------------------------------------------------------
  // serialize

  /** The whole dispatch: IExternalizable, ByteArray and Vector are checked
      ahead of the basic and complex paths. Only the vector path switches the
      output to AMF3, and only it can fail, at the cast to an AMF3 output. */
  function SerializeChoice(o: Obj, isCustom: Obj -> bool, amf3Output: bool): (r: Result<Action>)
    ensures o.Null? ==> r == Ok(Action(false, WriteNull))
    ensures o.Ref? && ExternalizableK in o.kinds ==> r == Ok(Action(false, WriteObject(o)))
    ensures o.Ref? && ExternalizableK !in o.kinds && ByteArrayK in o.kinds ==> r == Ok(Action(false, WriteByteArray(o)))
    ensures o.Ref? && (ExternalizableK !in o.kinds && ByteArrayK !in o.kinds) && VectorK in o.kinds ==>
              r == VectorChoice(o, amf3Output)
    ensures o.Ref? && (ExternalizableK !in o.kinds && ByteArrayK !in o.kinds && VectorK !in o.kinds) && WriteBasic(o).Some? ==>
              r == Ok(Action(false, WriteBasic(o).value))
    ensures o.Ref? && (ExternalizableK !in o.kinds && ByteArrayK !in o.kinds && VectorK !in o.kinds) && WriteBasic(o).None? ==>
              r == Ok(Action(false, WriteComplex(o, isCustom).value))
    ensures r.Ok? && r.value.enforceAmf3 ==> o.Ref? && VectorK in o.kinds && (ExternalizableK !in o.kinds && ByteArrayK !in o.kinds)
    ensures r.Err? ==> !amf3Output && o.Ref? && VectorK in o.kinds && r.failure == ClassCast
  {
    if o.Ref? && ExternalizableK in o.kinds then Ok(Action(false, WriteObject(o)))
    else if o.Ref? && ByteArrayK in o.kinds then Ok(Action(false, WriteByteArray(o)))
    else if o.Ref? && VectorK in o.kinds then VectorChoice(o, amf3Output)
    else
      var basic := WriteBasic(o);
      if basic.Some? then Ok(Action(false, basic.value))
      else
        match WriteComplex(o, isCustom)
        case Ok(w) => Ok(Action(false, w))
        case Err(f) => Err(f)
  }

  /** A value in a vector never reaches the basic path, even when it is also a
      String or a Number; on an AMF3 output it is always written. */
  lemma VectorsBypassBasicPath(o: Obj, isCustom: Obj -> bool, amf3Output: bool)
    requires o.Ref? && VectorK in o.kinds && (ExternalizableK !in o.kinds && ByteArrayK !in o.kinds)
    ensures amf3Output ==> SerializeChoice(o, isCustom, amf3Output).Ok?
    ensures var r := SerializeChoice(o, isCustom, amf3Output);
            r.Ok? ==> r.value.write.WriteVectorObject? || r.value.write.WriteVectorInt?
                      || r.value.write.WriteVectorUInt? || r.value.write.WriteVectorNumber?
  {
  }

  /** `serialize(out, any)`, running the counting loops of the vector and list paths. */
  method Serialize(o: Obj, isCustom: Obj -> bool, amf3Output: bool) returns (r: Result<Action>)
    ensures r == SerializeChoice(o, isCustom, amf3Output)
  {
    if o.Ref? && ExternalizableK in o.kinds {
      return Ok(Action(false, WriteObject(o)));
    }
    if o.Ref? && ByteArrayK in o.kinds {
      return Ok(Action(false, WriteByteArray(o)));
    }
    if o.Ref? && VectorK in o.kinds {
      r := SerializeVector(o, amf3Output);
      return;
    }
    var basic := WriteBasic(o);
    if basic.Some? {
      return Ok(Action(false, basic.value));
    }
    if IsList(o.kinds) {
      var w := WriteList(o.elements);
      return Ok(Action(false, w));
    }
    var complex := WriteComplex(o, isCustom);
    r := Ok(Action(false, complex.value));
  }

  /** The extension hook returns its argument unchanged. */
  function PreProcessExtension(o: Obj): (r: Obj)
    ensures r == o
  {
    o
  }

  // ---------------------------------------------------------------------------
  // Fields and class names

  /** Whether a bean property is serialized. `field` and `getter` are None when
      absent and otherwise say whether they carry `@DontSerialize`. */
  function SerializeField(keyName: string, field: Option<bool>, getter: Option<bool>): (r: bool)
    ensures keyName == "class" ==> !r
    ensures field == Some(true) || getter == Some(true) ==> !r
    ensures keyName != "class" && field != Some(true) && getter != Some(true) ==> r
  {
    if keyName == "class" then false
    else if field == Some(true) || getter == Some(true) then false
    else true
  }

  const COMPATIBILITY_PREFIX: string := "org.red5.compatibility."

  const ASYNC_MESSAGE_EXT: string := "flex.messaging.messages.AsyncMessageExt"
  const COMMAND_MESSAGE_EXT: string := "flex.messaging.messages.CommandMessageExt"
  const ACKNOWLEDGE_MESSAGE_EXT: string := "flex.messaging.messages.AcknowledgeMessageExt"

  predicate HasCompatibilityPrefix(className: string) {
    |className| >= |COMPATIBILITY_PREFIX| && className[..|COMPATIBILITY_PREFIX|] == COMPATIBILITY_PREFIX
  }

  /** The class name written for a class: its `RemoteClass` alias when it has
      one; otherwise its name, with the compatibility prefix stripped and the
      three extended message classes shortened to DSA, DSC and DSK. */
  function GetClassName(alias: Option<string>, className: string): (r: string)
    ensures alias.Some? ==> r == alias.value
    ensures alias.None? && !HasCompatibilityPrefix(className) ==> r == className
    ensures alias.None? && HasCompatibilityPrefix(className) ==>
              var stripped := className[23..];
              && (stripped == ASYNC_MESSAGE_EXT ==> r == "DSA")
              && (stripped == COMMAND_MESSAGE_EXT ==> r == "DSC")
              && (stripped == ACKNOWLEDGE_MESSAGE_EXT ==> r == "DSK")
              && (stripped !in {ASYNC_MESSAGE_EXT, COMMAND_MESSAGE_EXT, ACKNOWLEDGE_MESSAGE_EXT} ==> r == stripped)
  {
    if alias.Some? then alias.value
    else if HasCompatibilityPrefix(className) then
      var stripped := className[23..];
      if stripped == ASYNC_MESSAGE_EXT then "DSA"
      else if stripped == COMMAND_MESSAGE_EXT then "DSC"
      else if stripped == ACKNOWLEDGE_MESSAGE_EXT then "DSK"
      else stripped
    else className
  }

  /** Without an alias, a name that is not shortened is the class name with at
      most the prefix taken off: putting the prefix back gives the class name. */
  lemma {:induction false} GetClassNameStripsPrefixOnly(className: string)
    requires HasCompatibilityPrefix(className)
    requires className[23..] !in {ASYNC_MESSAGE_EXT, COMMAND_MESSAGE_EXT, ACKNOWLEDGE_MESSAGE_EXT}
    ensures COMPATIBILITY_PREFIX + GetClassName(None, className) == className
  {
    assert |COMPATIBILITY_PREFIX| == 23;
    assert className == className[..23] + className[23..];
  }

  /** The three extended message classes, given by their full names, get three distinct short names. */
  lemma ShortNamesDistinct()
    ensures GetClassName(None, COMPATIBILITY_PREFIX + ASYNC_MESSAGE_EXT) == "DSA"
    ensures GetClassName(None, COMPATIBILITY_PREFIX + COMMAND_MESSAGE_EXT) == "DSC"
    ensures GetClassName(None, COMPATIBILITY_PREFIX + ACKNOWLEDGE_MESSAGE_EXT) == "DSK"
  {
    var a, c, k := COMPATIBILITY_PREFIX + ASYNC_MESSAGE_EXT, COMPATIBILITY_PREFIX + COMMAND_MESSAGE_EXT,
                   COMPATIBILITY_PREFIX + ACKNOWLEDGE_MESSAGE_EXT;
    assert |COMPATIBILITY_PREFIX| == 23;
    assert a[..23] == COMPATIBILITY_PREFIX && a[23..] == ASYNC_MESSAGE_EXT;
    assert c[..23] == COMPATIBILITY_PREFIX && c[23..] == COMMAND_MESSAGE_EXT;
    assert k[..23] == COMPATIBILITY_PREFIX && k[23..] == ACKNOWLEDGE_MESSAGE_EXT;
  }
}
