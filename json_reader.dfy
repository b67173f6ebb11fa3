/**
 * `JsonArrayReader` of `src/easyeda/json_reader.rs`: a cursor over a JSON
 * array that hands out its elements one by one, each converted to the type
 * the caller asks for (None when the element has another type). EasyEDA
 * stores many records as positional arrays, and this cursor walks them.
 */
module JsonReader {
  import opened Wrappers
  import opened Numbers

  /** The negative `i64` values (`serde_json` keeps non-negative integers as `PosInt`). */
  type NegI64 = x: int | I64_MIN <= x < 0 witness -1

  /** `serde_json::Number`: a non-negative integer, a negative integer or a (finite) float. */
  datatype JsonNumber = PosInt(u: U64) | NegInt(i: NegI64) | Float(f: real)

  /** `serde_json::Value`. */
  datatype JsonValue =
    | JNull
    | JBool(b: bool)
    | JNumber(n: JsonNumber)
    | JString(s: string)
    | JArray(items: seq<JsonValue>)
    | JObject(members: seq<(string, JsonValue)>)

  // ---------------------------------------------------------------------
  // `serde_json::Value` accessors
  // ---------------------------------------------------------------------

  /** `Value::as_str`. */
  function AsStr(v: JsonValue): (r: Option<string>)
    ensures r.Some? <==> v.JString?
    ensures r.Some? ==> r.value == v.s
  {
    if v.JString? then Some(v.s) else None
  }

  /** `Value::as_u64`: only a non-negative integer. */
  function AsU64(v: JsonValue): (r: Option<U64>)
    ensures r.Some? <==> v.JNumber? && v.n.PosInt?
    ensures r.Some? ==> r.value == v.n.u
  {
    if v.JNumber? && v.n.PosInt? then Some(v.n.u) else None
  }

  /** `Value::as_i64`: a negative integer, or a non-negative one that fits in `i64`. */
  function AsI64(v: JsonValue): (r: Option<I64>)
    ensures r.Some? <==> v.JNumber? && (v.n.NegInt? || (v.n.PosInt? && v.n.u <= I64_MAX))
    ensures r.Some? && v.n.NegInt? ==> r.value == v.n.i
    ensures r.Some? && v.n.PosInt? ==> r.value == v.n.u
  {
    if !v.JNumber? then None
    else match v.n
      case PosInt(u) => if u <= I64_MAX then Some(u as I64) else None
      case NegInt(i) => Some(i as I64)
      case Float(_) => None
  }

  /** `Value::as_f64`: every number, integers converted (the float rounding is not modelled). */
  function AsF64(v: JsonValue): (r: Option<real>)
    ensures r.Some? <==> v.JNumber?
    ensures r.Some? && v.n.Float? ==> r.value == v.n.f
    ensures r.Some? && !v.n.Float? ==> r.value.Floor as real == r.value
  {
    if !v.JNumber? then None
    else match v.n
      case PosInt(u) => Some(u as real)
      case NegInt(i) => Some(i as real)
      case Float(f) => Some(f)
  }

  /**
   * The conversion of `read_bool`: a boolean is itself, a non-negative
   * integer is true exactly when it is 1, anything else is None.
   */
  function BoolOf(v: JsonValue): (r: Option<bool>)
    ensures r.Some? <==> v.JBool? || AsU64(v).Some?
    ensures v.JBool? ==> r == Some(v.b)
    ensures AsU64(v).Some? ==> r == Some(AsU64(v).value == 1)
  {
    if v.JBool? then Some(v.b) else match AsU64(v) case Some(n) => Some(n == 1) case None => None
  }

  // ---------------------------------------------------------------------
  // Rust's `as` casts between integer types
  // ---------------------------------------------------------------------

  /** `n as u8`: the low 8 bits. */
  function CastU8(n: int): (r: int)
    ensures 0 <= r < 0x100 && (n - r) % 0x100 == 0
  {
    n % 0x100
  }

  /** `n as u16`: the low 16 bits. */
  function CastU16(n: int): (r: int)
    ensures 0 <= r < 0x1_0000 && (n - r) % 0x1_0000 == 0
  {
    n % 0x1_0000
  }

  /** `n as u32`: the low 32 bits. */
  function CastU32(n: int): (r: int)
    ensures 0 <= r < 0x1_0000_0000 && (n - r) % 0x1_0000_0000 == 0
  {
    n % 0x1_0000_0000
  }

  /** `n as i8`: the low 8 bits read in two's complement. */
  function CastI8(n: int): (r: int)
    ensures -0x80 <= r < 0x80 && (n - r) % 0x100 == 0
    ensures r == if CastU8(n) < 0x80 then CastU8(n) else CastU8(n) - 0x100
  {
    (n + 0x80) % 0x100 - 0x80
  }

  /** `n as i16`: the low 16 bits read in two's complement. */
  function CastI16(n: int): (r: int)
    ensures -0x8000 <= r < 0x8000 && (n - r) % 0x1_0000 == 0
    ensures r == if CastU16(n) < 0x8000 then CastU16(n) else CastU16(n) - 0x1_0000
  {
    (n + 0x8000) % 0x1_0000 - 0x8000
  }

  /** `n as i32`: the low 32 bits read in two's complement. */
  function CastI32(n: int): (r: int)
    ensures -0x8000_0000 <= r < 0x8000_0000 && (n - r) % 0x1_0000_0000 == 0
    ensures r == if CastU32(n) < 0x8000_0000 then CastU32(n) else CastU32(n) - 0x1_0000_0000
  {
    (n + 0x8000_0000) % 0x1_0000_0000 - 0x8000_0000
  }

  /** A value that fits in the narrower type is left unchanged by its cast. */
  lemma CastsKeepFittingValues(n: int)
    ensures 0 <= n < 0x100 ==> CastU8(n) == n
    ensures 0 <= n < 0x1_0000 ==> CastU16(n) == n
    ensures 0 <= n < 0x1_0000_0000 ==> CastU32(n) == n
    ensures -0x80 <= n < 0x80 ==> CastI8(n) == n
    ensures -0x8000 <= n < 0x8000 ==> CastI16(n) == n
    ensures -0x8000_0000 <= n < 0x8000_0000 ==> CastI32(n) == n
  {
  }

  /** `as_u64().map(|n| n as u8)`: a non-negative integer, cut to its low 8 bits. */
  function U8Of(v: JsonValue): (r: Option<U8>)
    ensures r.Some? <==> AsU64(v).Some?
    ensures r.Some? ==> r.value == CastU8(AsU64(v).value)
  {
    if AsU64(v).Some? then Some(CastU8(AsU64(v).value) as U8) else None
  }

  /** `as_u64().map(|n| n as u16)`: a non-negative integer, cut to its low 16 bits. */
  function U16Of(v: JsonValue): (r: Option<U16>)
    ensures r.Some? <==> AsU64(v).Some?
    ensures r.Some? ==> r.value == CastU16(AsU64(v).value)
  {
    if AsU64(v).Some? then Some(CastU16(AsU64(v).value) as U16) else None
  }

  /** `as_u64().map(|n| n as u32)`: a non-negative integer, cut to its low 32 bits. */
  function U32Of(v: JsonValue): (r: Option<U32>)
    ensures r.Some? <==> AsU64(v).Some?
    ensures r.Some? ==> r.value == CastU32(AsU64(v).value)
  {
    if AsU64(v).Some? then Some(CastU32(AsU64(v).value) as U32) else None
  }

  /** `as_i64().map(|n| n as i8)`: an integer that fits in `i64`, cut to 8 bits in two's complement. */
  function I8Of(v: JsonValue): (r: Option<I8>)
    ensures r.Some? <==> AsI64(v).Some?
    ensures r.Some? ==> r.value == CastI8(AsI64(v).value)
  {
    if AsI64(v).Some? then Some(CastI8(AsI64(v).value) as I8) else None
  }

  /** `as_i64().map(|n| n as i16)`: an integer that fits in `i64`, cut to 16 bits in two's complement. */
  function I16Of(v: JsonValue): (r: Option<I16>)
    ensures r.Some? <==> AsI64(v).Some?
    ensures r.Some? ==> r.value == CastI16(AsI64(v).value)
  {
    if AsI64(v).Some? then Some(CastI16(AsI64(v).value) as I16) else None
  }

  /** `as_i64().map(|n| n as i32)`: an integer that fits in `i64`, cut to 32 bits in two's complement. */
  function I32Of(v: JsonValue): (r: Option<I32>)
    ensures r.Some? <==> AsI64(v).Some?
    ensures r.Some? ==> r.value == CastI32(AsI64(v).value)
  {
    if AsI64(v).Some? then Some(CastI32(AsI64(v).value) as I32) else None
  }

  // ---------------------------------------------------------------------
  // The cursor
  // ---------------------------------------------------------------------

  class JsonArrayReader {
    const elements: seq<JsonValue>
    var index: nat

    /** The cursor never passes the end of the array. */
    ghost predicate Valid()
      reads this
    {
      index <= |elements|
    }

    /** `new`: a cursor at the first element. */
    constructor (elements: seq<JsonValue>)
      ensures this.elements == elements && index == 0
      ensures Valid() && Remaining() == |elements| && (CanRead() <==> elements != [])
    {
      this.elements := elements;
      index := 0;
    }

    /** `can_read`: an element is left. */
    predicate CanRead()
      reads this
    {
      index < |elements|
    }

    /** `remaining`: how many elements are left. */
    function Remaining(): (r: nat)
      reads this
      requires Valid()
      ensures r == 0 <==> !CanRead()
      ensures index + r == |elements|
    {
      |elements| - index
    }

    /** `read_value`: the next element, whatever it is. */
    method ReadValue() returns (r: Option<JsonValue>)
      requires CanRead()
      modifies this
      ensures index == old(index) + 1 && Valid()
      ensures r == Some(elements[old(index)])
    {
      index := index + 1;
      r := Some(elements[index - 1]);
    }

    /** `read_string`: the next element if it is a string. */
    method ReadString() returns (r: Option<string>)
      requires CanRead()
      modifies this
      ensures index == old(index) + 1 && Valid()
      ensures r == AsStr(elements[old(index)])
    {
      index := index + 1;
      r := AsStr(elements[index - 1]);
    }

    /** `read_u64`: the next element if it is a non-negative integer. */
    method ReadU64() returns (r: Option<U64>)
      requires CanRead()
      modifies this
      ensures index == old(index) + 1 && Valid()
      ensures r == AsU64(elements[old(index)])
    {
      index := index + 1;
      r := AsU64(elements[index - 1]);
    }

    /** `read_u8`: `read_u64` cut to the low 8 bits. */
    method ReadU8() returns (r: Option<U8>)
      requires CanRead()
      modifies this
      ensures index == old(index) + 1 && Valid()
      ensures r == U8Of(elements[old(index)])
    {
      index := index + 1;
      r := U8Of(elements[index - 1]);
    }

    /** `read_u16`: `read_u64` cut to the low 16 bits. */
    method ReadU16() returns (r: Option<U16>)
      requires CanRead()
      modifies this
      ensures index == old(index) + 1 && Valid()
      ensures r == U16Of(elements[old(index)])
    {
      index := index + 1;
      r := U16Of(elements[index - 1]);
    }

    /** `read_u32`: `read_u64` cut to the low 32 bits. */
    method ReadU32() returns (r: Option<U32>)
      requires CanRead()
      modifies this
      ensures index == old(index) + 1 && Valid()
      ensures r == U32Of(elements[old(index)])
    {
      index := index + 1;
      r := U32Of(elements[index - 1]);
    }

    /** `read_i64`: the next element if it is an integer that fits in `i64`. */
    method ReadI64() returns (r: Option<I64>)
      requires CanRead()
      modifies this
      ensures index == old(index) + 1 && Valid()
      ensures r == AsI64(elements[old(index)])
    {
      index := index + 1;
      r := AsI64(elements[index - 1]);
    }

    /** `read_i8`: `read_i64` cut to the low 8 bits, in two's complement. */
    method ReadI8() returns (r: Option<I8>)
      requires CanRead()
      modifies this
      ensures index == old(index) + 1 && Valid()
      ensures r == I8Of(elements[old(index)])
    {
      index := index + 1;
      r := I8Of(elements[index - 1]);
    }

    /** `read_i16`: `read_i64` cut to the low 16 bits, in two's complement. */
    method ReadI16() returns (r: Option<I16>)
      requires CanRead()
      modifies this
      ensures index == old(index) + 1 && Valid()
      ensures r == I16Of(elements[old(index)])
    {
      index := index + 1;
      r := I16Of(elements[index - 1]);
    }

    /** `read_i32`: `read_i64` cut to the low 32 bits, in two's complement. */
    method ReadI32() returns (r: Option<I32>)
      requires CanRead()
      modifies this
      ensures index == old(index) + 1 && Valid()
      ensures r == I32Of(elements[old(index)])
    {
      index := index + 1;
      r := I32Of(elements[index - 1]);
    }

    /** `read_f64`: the next element if it is a number. */
    method ReadF64() returns (r: Option<real>)
      requires CanRead()
      modifies this
      ensures index == old(index) + 1 && Valid()
      ensures r == AsF64(elements[old(index)])
    {
      index := index + 1;
      r := AsF64(elements[index - 1]);
    }

    /** `read_f32`: as `read_f64`, the narrowing to `f32` not modelled. */
    method ReadF32() returns (r: Option<real>)
      requires CanRead()
      modifies this
      ensures index == old(index) + 1 && Valid()
      ensures r == AsF64(elements[old(index)])
    {
      index := index + 1;
      r := AsF64(elements[index - 1]);
    }

    /** `read_bool`: a boolean, or a non-negative integer compared with 1. */
    method ReadBool() returns (r: Option<bool>)
      requires CanRead()
      modifies this
      ensures index == old(index) + 1 && Valid()
      ensures r == BoolOf(elements[old(index)])
    {
      index := index + 1;
      var value := elements[index - 1];
      if value.JBool? {
        r := Some(value.b);
      } else {
        var n := AsU64(value);
        r := if n.Some? then Some(n.value == 1) else None;
      }
    }

    /**
     * `read_enum`: skips one element, then reads the following one as an
     * unsigned integer and decodes it. The source unwraps the decoding, so
     * callers must only meet integers that name a variant.
     */
    method ReadEnum<T>(decode: U64 -> Option<T>) returns (r: Option<T>)
      requires index + 1 < |elements|
      requires AsU64(elements[index + 1]).Some? ==> decode(AsU64(elements[index + 1]).value).Some?
      modifies this
      ensures index == old(index) + 2 && Valid()
      ensures AsU64(elements[old(index) + 1]).None? ==> r.None?
      ensures AsU64(elements[old(index) + 1]).Some? ==> r == decode(AsU64(elements[old(index) + 1]).value)
    {
      index := index + 1;
      var n := ReadU64();
      r := if n.Some? then decode(n.value) else None;
    }
  }

  /** `read_u8` of 300 gives 44 and `read_i8` of 200 gives -56: the casts keep the low byte. */
  lemma NarrowingExamples()
    ensures U8Of(JNumber(PosInt(300))) == Some(44)
    ensures I8Of(JNumber(PosInt(200))) == Some(-56)
  {
  }

  /** `read_bool` reads 1 as true, 0 and 2 as false, `"true"` and a negative number as nothing. */
  lemma BoolOfExamples()
    ensures BoolOf(JNumber(PosInt(1))) == Some(true)
    ensures BoolOf(JNumber(PosInt(0))) == Some(false) && BoolOf(JNumber(PosInt(2))) == Some(false)
    ensures BoolOf(JString("true")).None? && BoolOf(JNumber(NegInt(-1))).None?
  {
  }
}
