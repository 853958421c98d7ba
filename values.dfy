/** Raw field values of a polled Nest device record and the few Python
    operations the sensor platforms apply to them: truthiness, comparison
    with an int, string concatenation and dictionary lookup. */
module Values {
  import opened Const

  datatype Option<+T> = None | Some(value: T)

  /** A raw field value: None, a bool, an int, a float (kept as a real number,
      it is only passed through or compared) or a str. */
  datatype Value = Null | Bool(b: bool) | Int(i: int) | Float(x: real) | Str(s: string)

  /** The Python exceptions reading a record can raise; ValueError comes
      from parsing a malformed date string. */
  datatype PyError = KeyError(key: string) | TypeError | ValueError

  /** A Python expression either yields a value or raises. */
  datatype Outcome<+T> = Ok(value: T) | Raised(error: PyError) {
    predicate IsFailure() { Raised? }

    function PropagateFailure<U>(): Outcome<U>
      requires Raised?
    {
      Raised(error)
    }

    function Extract(): T
      requires Ok?
    {
      value
    }
  }

  /** One device's fields, and the API client's `device_data`: device id to record. */
  type Record = map<string, Value>
  type DeviceData = map<string, Record>

  /** Python's `bool(v)`. */
  predicate Truthy(v: Value) {
    match v
    case Null => false
    case Bool(b) => b
    case Int(i) => i != 0
    case Float(x) => x != 0.0
    case Str(s) => s != ""
  }

  /** The number Python compares with an int: bool is a subclass of int,
      None and str are not numbers at all. */
  function AsNumber(v: Value): Option<real> {
    match v
    case Bool(b) => Some(if b then 1.0 else 0.0)
    case Int(i) => Some(i as real)
    case Float(x) => Some(x)
    case _ => None
  }

  /** Python's `v > 0`: comparing None or a str with an int raises TypeError. */
  function GreaterThanZero(v: Value): (r: Outcome<bool>)
    ensures r.Raised? <==> v.Null? || v.Str?
    ensures r.Raised? ==> r.error == TypeError
    ensures v.Int? ==> r == Ok(v.i > 0)
    ensures v.Bool? ==> r == Ok(v.b)
    ensures v.Float? ==> r == Ok(v.x > 0.0)
  {
    match AsNumber(v)
    case Some(n) => Ok(n > 0.0)
    case None => Raised(TypeError)
  }

  /** Python's `v == n` for an int literal n: never raises, and is False
      for None and for every str. */
  predicate EqualsInt(v: Value, n: int) {
    AsNumber(v) == Some(n as real)
  }

  /** Python's `v + suffix` where suffix is a str. */
  function ConcatStr(v: Value, suffix: string): (r: Outcome<string>)
    ensures r.Ok? <==> v.Str?
    ensures r.Ok? ==> |r.value| == |v.s| + |suffix| && r.value[..|v.s|] == v.s && r.value[|v.s|..] == suffix
    ensures r.Raised? ==> r.error == TypeError
  {
    if v.Str? then Ok(v.s + suffix) else Raised(TypeError)
  }

  /** `device_data[id][key]`: the device lookup raises first, then the field lookup. */
  function Field(data: DeviceData, id: string, key: string): Outcome<Value> {
    if id !in data then Raised(KeyError(id))
    else if key !in data[id] then Raised(KeyError(key))
    else Ok(data[id][key])
  }

  /** Every key in `keys` can be read for device `id`. */
  predicate HasFields(data: DeviceData, id: string, keys: seq<string>) {
    id in data && forall k :: k in keys ==> k in data[id]
  }

  /** All five self-test results are present and truthy. */
  predicate SelfTestsPassed(rec: Record) {
    forall k :: k in SelfTestFields ==> k in rec && Truthy(rec[k])
  }

  /** The first `n` of `keys` can be read for device `id` and are all truthy. */
  predicate TruthyBefore(data: DeviceData, id: string, keys: seq<string>, n: nat)
    requires n <= |keys|
  {
    forall m :: 0 <= m < n ==> Field(data, id, keys[m]).Ok? && Truthy(Field(data, id, keys[m]).value)
  }

  /** Python's `r[k0] and r[k1] and ...` in a boolean context: evaluated left
      to right, stopping at the first falsy value; a missing key raises only
      when its turn comes. */
  function AllTruthy(data: DeviceData, id: string, keys: seq<string>): (r: Outcome<bool>)
    requires keys != []
    ensures forall n :: 0 <= n < |keys| && TruthyBefore(data, id, keys, n) && Field(data, id, keys[n]).Raised? ==>
              r == Raised(Field(data, id, keys[n]).error)
    ensures forall n :: 0 <= n < |keys| && TruthyBefore(data, id, keys, n) && Field(data, id, keys[n]).Ok? ==>
              !Truthy(Field(data, id, keys[n]).value) ==> r == Ok(false)
    ensures TruthyBefore(data, id, keys, |keys|) ==> r == Ok(true)
    ensures HasFields(data, id, keys) ==> r == Ok(forall k :: k in keys ==> Truthy(data[id][k]))
    ensures r == Ok(true) ==> HasFields(data, id, keys) && forall k :: k in keys ==> Truthy(data[id][k])
    ensures r.Raised? ==> r.error.KeyError? && !HasFields(data, id, keys)
    decreases |keys|
  {
    var v :- Field(data, id, keys[0]);
    if !Truthy(v) then Ok(false)
    else if |keys| == 1 then Ok(true)
    else
      TruthyBeforeShift(data, id, keys);
      AllTruthy(data, id, keys[1..])
  }

  /** Once the first key is readable and truthy, a truthy prefix of `keys`
      is that key followed by a truthy prefix of the rest. */
  lemma TruthyBeforeShift(data: DeviceData, id: string, keys: seq<string>)
    requires |keys| > 1 && Field(data, id, keys[0]).Ok? && Truthy(Field(data, id, keys[0]).value)
    ensures forall n :: 1 <= n <= |keys| ==> (TruthyBefore(data, id, keys, n) <==> TruthyBefore(data, id, keys[1..], n - 1))
  {
    forall n | 1 <= n <= |keys|
      ensures TruthyBefore(data, id, keys, n) <==> TruthyBefore(data, id, keys[1..], n - 1)
    {
      assert forall m :: 1 <= m < n ==> keys[m] == keys[1..][m - 1];
    }
  }

  /** A dict display `{k: device_data[id][k], ...}` over `keys`, evaluated in
      order: every value is copied verbatim, and the first unreadable key raises. */
  function CopyFields(data: DeviceData, id: string, keys: seq<string>): (r: Outcome<map<string, Value>>)
    requires keys != []
    ensures r.Ok? <==> HasFields(data, id, keys)
    ensures r.Ok? ==> r.value.Keys == (set k | k in keys)
    ensures r.Ok? ==> forall k :: k in r.value ==> r.value[k] == data[id][k]
    ensures r.Raised? ==> r.error.KeyError?
    ensures forall n :: 0 <= n < |keys| && ReadableBefore(data, id, keys, n) && Field(data, id, keys[n]).Raised? ==>
              r == Raised(Field(data, id, keys[n]).error)
    decreases |keys|
  {
    assert keys[0] in keys && forall k :: k in keys[1..] ==> k in keys;
    var v :- Field(data, id, keys[0]);
    if |keys| == 1 then Ok(map[keys[0] := v])
    else
      ReadableBeforeShift(data, id, keys);
      var rest :- CopyFields(data, id, keys[1..]);
      Ok(rest[keys[0] := v])
  }

  /** The first `n` of `keys` can be read for device `id`. */
  predicate ReadableBefore(data: DeviceData, id: string, keys: seq<string>, n: nat)
    requires n <= |keys|
  {
    forall m :: 0 <= m < n ==> Field(data, id, keys[m]).Ok?
  }

  /** Once the first key is readable, a readable prefix of `keys` is that key
      followed by a readable prefix of the rest. */
  lemma ReadableBeforeShift(data: DeviceData, id: string, keys: seq<string>)
    requires |keys| > 1 && Field(data, id, keys[0]).Ok?
    ensures forall n :: 1 <= n <= |keys| ==> (ReadableBefore(data, id, keys, n) <==> ReadableBefore(data, id, keys[1..], n - 1))
  {
    forall n | 1 <= n <= |keys|
      ensures ReadableBefore(data, id, keys, n) <==> ReadableBefore(data, id, keys[1..], n - 1)
    {
      assert forall m :: 1 <= m < n ==> keys[m] == keys[1..][m - 1];
    }
  }

  /** `p + a == p + b` only when `a == b`. */
  lemma PrefixCancel(p: string, a: string, b: string)
    requires p + a == p + b
    ensures a == b
  {
    assert a == (p + a)[|p|..];
    assert b == (p + b)[|p|..];
  }
}
