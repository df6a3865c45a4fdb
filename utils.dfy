/** The nested-field accessor `safe_get` and the value normalisers of
    model/utils.py. */
module Utils {
  import opened Json
  import Text

  // ---------------------------------------------------------------------------
  // safe_get
  // ---------------------------------------------------------------------------

  /** The value safe_get(data, *keys) returns: follow the keys through nested
      dicts; a missing key yields None, and reaching anything that is not a
      dict while keys remain yields None. */
  function Walk(data: Json, keys: seq<Json>): Json
    decreases |keys|
  {
    if keys == [] then data
    else if data.JDict? then Walk(Get(data.entries, keys[0]), keys[1..])
    else JNull
  }

  /** The outcome of safe_get(data, *keys): the walk's value, except that
      data.get(key) raises TypeError when a dict is looked up with an
      unhashable key (a list or a dict). */
  function Lookup(data: Json, keys: seq<Json>): (r: Result<Json>)
    ensures r.Ok? ==> r.value == Walk(data, keys)
    ensures (forall i :: 0 <= i < |keys| ==> Hashable(keys[i])) ==> r.Ok?
    ensures r.Raised? ==> exists i :: 0 <= i < |keys| && !Hashable(keys[i])
    decreases |keys|
  {
    if keys == [] then Ok(data)
    else if !data.JDict? then Ok(JNull)
    else if !Hashable(keys[0]) then Raised
    else
      var r := Lookup(Get(data.entries, keys[0]), keys[1..]);
      assert forall i :: 1 <= i < |keys| ==> keys[1..][i - 1] == keys[i];
      r
  }

  /** safe_get itself: one dict step per key, giving up at the first value
      that is not a dict. */
  method SafeGet(data: Json, keys: seq<Json>) returns (r: Result<Json>)
    ensures r == Lookup(data, keys)
  {
    var current := data;
    var i := 0;
    while i < |keys|
      invariant 0 <= i <= |keys|
      invariant Lookup(current, keys[i..]) == Lookup(data, keys)
    {
      assert keys[i..][1..] == keys[i + 1..];
      if current.JDict? {
        if !Hashable(keys[i]) {
          return Raised;
        }
        current := Get(current.entries, keys[i]);
      } else {
        return Ok(JNull);
      }
      i := i + 1;
    }
    r := Ok(current);
  }

  /** One more key after a path of string keys: the lookup raises exactly
      when the path leads to a dict and the key is unhashable. */
  lemma {:induction false} LookupAfterPath(data: Json, path: seq<string>, k: Json)
    ensures Lookup(data, Path(path) + [k]) ==
      if Walk(data, Path(path)).JDict? && !Hashable(k) then Raised else Ok(Walk(data, Path(path) + [k]))
    decreases |path|
  {
    var p := Path(path) + [k];
    if path == [] {
      assert p == [k];
    } else {
      assert p[1..] == Path(path[1..]) + [k];
      assert Path(path)[1..] == Path(path[1..]);
      if data.JDict? {
        LookupAfterPath(Get(data.entries, JStr(path[0])), path[1..], k);
      }
    }
  }

  /** Once the walk has produced None, any further keys keep it None. */
  lemma WalkFromNull(keys: seq<Json>)
    ensures Walk(JNull, keys) == JNull
  {
  }

  /** A key missing from a dict ends the walk with None, whatever follows. */
  lemma WalkMissingKey(entries: seq<Entry>, k: Json, rest: seq<Json>)
    requires !Has(entries, k)
    ensures Walk(JDict(entries), [k] + rest) == JNull
  {
    assert ([k] + rest)[1..] == rest;
  }

  /** An absent key reads exactly like a key explicitly holding None. */
  lemma WalkAbsentLikeNull(entries: seq<Entry>, k: Json, rest: seq<Json>)
    requires !Has(entries, k)
    ensures Walk(JDict(entries), [k] + rest) == Walk(JDict(entries + [Entry(k, JNull)]), [k] + rest)
  {
    assert ([k] + rest)[1..] == rest;
    GetAppend(entries, Entry(k, JNull), k);
  }

  /** Walking a concatenated key path is walking the first part, then the
      second from where the first ended. */
  lemma {:induction false} WalkAppend(data: Json, ks1: seq<Json>, ks2: seq<Json>)
    ensures Walk(data, ks1 + ks2) == Walk(Walk(data, ks1), ks2)
    decreases |ks1|
  {
    if ks1 == [] {
      assert ks1 + ks2 == ks2;
    } else if data.JDict? {
      assert (ks1 + ks2)[1..] == ks1[1..] + ks2;
      WalkAppend(Get(data.entries, ks1[0]), ks1[1..], ks2);
    } else {
      WalkFromNull(ks2);
    }
  }

  // ---------------------------------------------------------------------------
  // Numbers
  // ---------------------------------------------------------------------------

  /** Values Python arithmetic accepts without complaint: bools, ints and
      floats. (float() accepts these and also numeric strings; see FloatOf.) */
  predicate IsNumber(v: Json)
  {
    v.JBool? || v.JInt? || v.JReal?
  }

  /** The exact numeric value of a number; floats are taken as exact reals. */
  function NumericValue(v: Json): real
    requires IsNumber(v)
  {
    match v
    case JBool(b) => if b then 1.0 else 0.0
    case JInt(i) => i as real
    case JReal(r) => r
  }

  /** Python's float(v): a number gives its own value, a string is read as
      a decimal, and anything else (None, a list, a dict, text that is not a
      decimal) raises. */
  function FloatOf(v: Json): (r: Result<real>)
    ensures IsNumber(v) ==> r == Ok(NumericValue(v))
    ensures v.JStr? ==> (r.Ok? <==> Text.ParseFloat(v.s).Some?)
    ensures v.JStr? && r.Ok? ==> r.value == Text.ParseFloat(v.s).value
    ensures !IsNumber(v) && !v.JStr? ==> r.Raised?
  {
    if v.JStr? then
      (match Text.ParseFloat(v.s) case Some(x) => Ok(x) case None => Raised)
    else if IsNumber(v) then Ok(NumericValue(v))
    else Raised
  }

  /** float() reads back the decimal text of any integer. */
  lemma FloatOfDecimalText(n: int)
    ensures FloatOf(JStr(Text.Decimal(n))) == Ok(n as real)
  {
    Text.ParseFloatOfDecimal(n);
  }

  /** Python's round(x, 0) on a float: the nearest integer, and on a tie the
      even one of the two. */
  function RoundHalfEven(x: real): (n: int)
    ensures -0.5 <= x - n as real <= 0.5
    ensures (x - n as real == 0.5 || x - n as real == -0.5) ==> n % 2 == 0
  {
    var f := x.Floor;
    var d := x - f as real;
    if d < 0.5 then f
    else if d > 0.5 then f + 1
    else if f % 2 == 0 then f
    else f + 1
  }

  /** The two properties of RoundHalfEven pin the result down: no other
      integer is as close with ties going to the even neighbour. */
  lemma RoundHalfEvenUnique(x: real, m: int)
    requires -0.5 <= x - m as real <= 0.5
    requires (x - m as real == 0.5 || x - m as real == -0.5) ==> m % 2 == 0
    ensures m == RoundHalfEven(x)
  {
  }

  lemma RoundHalfEvenOfInteger(k: int)
    ensures RoundHalfEven(k as real) == k
  {
    RoundHalfEvenUnique(k as real, k);
  }

  /** Python's int(x) on a float: truncation toward zero. */
  function Truncate(x: real): (t: int)
    ensures 0.0 <= x ==> 0 <= t && t as real <= x < t as real + 1.0
    ensures x < 0.0 ==> t <= 0 && t as real - 1.0 < x <= t as real
  {
    if x >= 0.0 then x.Floor else -((-x).Floor)
  }

  // ---------------------------------------------------------------------------
  // Normalisers
  // ---------------------------------------------------------------------------

  /** The conversions a catalog entry can apply to the raw field value. Raw
      stands for an entry whose value is the field itself, with no
      normaliser. */
  datatype Normaliser =
    | Raw
    | NodeTemperature | NodeHumidity | NodeCo2 | NodeIaq
    | Temperature | Speed | Pressure | Rssi | Uptime | TimeFilterRemain
    | BypassPosition

  predicate IsPassThrough(n: Normaliser)
  {
    n !in {Temperature, Pressure, BypassPosition}
  }

  /** process_temperature: tenths of a degree to degrees (value / 10.0). */
  function ProcessTemperature(v: Json): (r: Result<Json>)
    ensures v == JNull ==> r == Ok(JNull)
    ensures IsNumber(v) ==> r.Ok? && r.value.JReal? && r.value.r * 10.0 == NumericValue(v)
    ensures r.Raised? <==> v != JNull && !IsNumber(v)
  {
    if v == JNull then Ok(JNull)
    else if IsNumber(v) then Ok(JReal(NumericValue(v) / 10.0))
    else Raised
  }

  /** process_pressure: tenths of a pascal to pascals (float(value) * .1);
      a numeric string is accepted like the number it spells. */
  function ProcessPressure(v: Json): (r: Result<Json>)
    ensures v == JNull ==> r == Ok(JNull)
    ensures v != JNull && FloatOf(v).Ok? ==>
      r.Ok? && r.value.JReal? && r.value.r * 10.0 == FloatOf(v).value
    ensures r.Raised? <==> v != JNull && FloatOf(v).Raised?
  {
    if v == JNull then Ok(JNull)
    else match FloatOf(v)
      case Ok(x) => Ok(JReal(x * 0.1))
      case Raised => Raised
  }

  /** process_bypass_position: int(round(float(value), 0)): the nearest
      integer to float(value), the even one on a tie. */
  function ProcessBypassPosition(v: Json): (r: Result<Json>)
    ensures v == JNull ==> r == Ok(JNull)
    ensures v != JNull && FloatOf(v).Ok? ==>
      r.Ok? && r.value.JInt? && -0.5 <= FloatOf(v).value - r.value.i as real <= 0.5
    ensures v != JNull && FloatOf(v).Ok? ==>
      var d := FloatOf(v).value - r.value.i as real;
      (d == 0.5 || d == -0.5) ==> r.value.i % 2 == 0
    ensures r.Raised? <==> v != JNull && FloatOf(v).Raised?
  {
    if v == JNull then Ok(JNull)
    else match FloatOf(v)
      case Ok(x) => Ok(JInt(RoundHalfEven(x)))
      case Raised => Raised
  }

  /** Every process_* function: a value of None passes through as None; the
      pass-through ones (process_node_*, process_speed, process_rssi,
      process_uptime, process_timefilterremain) return any other value as it
      is. */
  function Normalise(n: Normaliser, v: Json): (r: Result<Json>)
    ensures r == Ok(JNull) <==> v == JNull
    ensures IsPassThrough(n) ==> r == Ok(v)
  {
    match n
    case Temperature => ProcessTemperature(v)
    case Pressure => ProcessPressure(v)
    case BypassPosition => ProcessBypassPosition(v)
    case _ => Ok(v)
  }

  /** On None and on numbers both scalings agree over exact reals: dividing
      by 10 is multiplying by one tenth. */
  lemma PressureScalesLikeTemperature(v: Json)
    ensures (v == JNull || IsNumber(v)) ==> ProcessPressure(v) == ProcessTemperature(v)
  {
  }

  /** Where they differ: process_pressure passes its value through float()
      and so reads numeric text, while process_temperature divides the value
      itself and raises on any string. */
  lemma PressureReadsNumericText(n: int)
    ensures ProcessPressure(JStr(Text.Decimal(n))) == Ok(JReal(n as real / 10.0))
    ensures ProcessTemperature(JStr(Text.Decimal(n))).Raised?
    ensures ProcessBypassPosition(JStr(Text.Decimal(n))) == Ok(JInt(n))
  {
    FloatOfDecimalText(n);
    RoundHalfEvenOfInteger(n);
  }

  /** A whole-number bypass position, in particular any 0..100 percentage,
      comes back unchanged. */
  lemma BypassPositionKeepsIntegers(k: int)
    ensures ProcessBypassPosition(JInt(k)) == Ok(JInt(k))
  {
    RoundHalfEvenOfInteger(k);
  }

  lemma NormaliserExamples()
    ensures ProcessTemperature(JInt(215)) == Ok(JReal(21.5))
    ensures ProcessPressure(JInt(123)) == Ok(JReal(12.3))
    ensures ProcessBypassPosition(JReal(57.4)) == Ok(JInt(57))
    ensures ProcessBypassPosition(JInt(100)) == Ok(JInt(100))
    ensures ProcessBypassPosition(JReal(2.5)) == Ok(JInt(2))
    ensures ProcessBypassPosition(JReal(3.5)) == Ok(JInt(4))
    ensures ProcessTemperature(JNull) == Ok(JNull)
  {
    BypassPositionKeepsIntegers(100);
    RoundHalfEvenUnique(57.4, 57);
    RoundHalfEvenUnique(2.5, 2);
    RoundHalfEvenUnique(3.5, 4);
  }

  /** float() on text: a whole decimal is read as its number. */
  lemma PressureTextExample()
    ensures ProcessPressure(JStr("123")) == Ok(JReal(12.3))
  {
    assert "123"[..2] == "12" && "12"[..1] == "1" && "1"[..0] == "";
    assert Text.ParseDigits("123") == 123;
    assert Text.AllDigits("123");
    assert Text.ParseFloat("123") == Text.Some(123.0);
  }

  /** float() on text with a fraction, then rounded. */
  lemma BypassTextExample()
    ensures ProcessBypassPosition(JStr("57.4")) == Ok(JInt(57))
  {
    assert Text.TakeUntil("57.4", '.') == "57" by {
      assert Text.TakeUntil("4", '.') == "4";
      assert "57.4"[1..] == "7.4" && "7.4"[1..] == ".4";
    }
    assert "57.4"[3..] == "4";
    assert "57"[..1] == "5" && "5"[..0] == "";
    assert Text.ParseDigits("57") == 57;
    assert Text.ParseDigits("4") == 4;
    assert Text.ParseFloat("57.4") == Text.Some(57.4);
    RoundHalfEvenUnique(57.4, 57);
  }

  /** Text that is not a decimal, and a container, make float() raise. */
  lemma NonNumericTextRaises()
    ensures ProcessPressure(JStr("high")).Raised?
    ensures ProcessBypassPosition(JList([])).Raised?
  {
    assert !Text.IsDigit('h');
  }
}
