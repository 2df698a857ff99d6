/** The key-value tree that `to_dict` produces and `from_dict` consumes, as it
    is stored in the document store, together with the dictionary accesses the
    record classes perform on it. */
module Document {
  import opened Wrappers

  /** A Python number: an `int`, a finite `float`, or a float NaN. */
  datatype Number = Int(i: int) | Float(r: real) | NaN

  /** A stored value: a string, a number, `None`, a dictionary or a list. */
  datatype Value =
    | Str(s: string)
    | Num(n: Number)
    | Null
    | Dict(entries: map<string, Value>)
    | List(items: seq<Value>)

  /** What a `from_dict` call raises. */
  datatype DecodeError =
    | NotADict              // `data[...]` on something that is not a dictionary (TypeError)
    | KeyMissing(key: string) // `data[key]` with `key` absent (KeyError)
    | WrongType(key: string)  // the value under `key` is not of the declared kind
    | NotIterable(key: string) // a list comprehension over a number or None (TypeError)

  /** `data[key]` where the class declares a number. */
  function NumberAt(m: map<string, Value>, key: string): (r: Result<Number, DecodeError>)
    ensures r.Ok? <==> key in m && m[key].Num?
    ensures r.Ok? ==> m[key] == Num(r.value)
  {
    if key !in m then Err(KeyMissing(key))
    else if m[key].Num? then Ok(m[key].n)
    else Err(WrongType(key))
  }

  /** `data[key]` where the class declares a string. */
  function StringAt(m: map<string, Value>, key: string): (r: Result<string, DecodeError>)
    ensures r.Ok? <==> key in m && m[key].Str?
    ensures r.Ok? ==> m[key] == Str(r.value)
  {
    if key !in m then Err(KeyMissing(key))
    else if m[key].Str? then Ok(m[key].s)
    else Err(WrongType(key))
  }

  /** `data[key]`. */
  function ValueAt(m: map<string, Value>, key: string): (r: Result<Value, DecodeError>)
    ensures r.Ok? <==> key in m
    ensures r.Ok? ==> r.value == m[key]
  {
    if key in m then Ok(m[key]) else Err(KeyMissing(key))
  }

  /** `data[k]` for each string-typed key `k` in turn, as a constructor call's
      keyword arguments evaluate them: the first failure is raised. */
  function StringsAt(m: map<string, Value>, keys: seq<string>): (r: Result<seq<string>, DecodeError>)
    ensures r.Ok? <==> forall i :: 0 <= i < |keys| ==> StringAt(m, keys[i]).Ok?
    ensures r.Ok? ==> |r.value| == |keys| && forall i :: 0 <= i < |keys| ==> m[keys[i]] == Str(r.value[i])
  {
    if keys == [] then Ok([])
    else
      var head :- StringAt(m, keys[0]);
      var tail :- StringsAt(m, keys[1..]);
      assert forall i :: 1 <= i < |keys| ==> keys[i] == keys[1..][i - 1];
      Ok([head] + tail)
  }

  /** When every key holds the matching string, `StringsAt` reads exactly
      those strings. */
  lemma {:induction false} StringsAtExactly(m: map<string, Value>, keys: seq<string>, xs: seq<string>)
    requires |xs| == |keys|
    requires forall i :: 0 <= i < |keys| ==> keys[i] in m && m[keys[i]] == Str(xs[i])
    ensures StringsAt(m, keys) == Ok(xs)
  {
    if keys != [] {
      assert forall i :: 0 <= i < |keys| - 1 ==> keys[1..][i] == keys[i + 1] && xs[1..][i] == xs[i + 1];
      StringsAtExactly(m, keys[1..], xs[1..]);
      assert xs == [xs[0]] + xs[1..];
    }
  }

  /** `data.get(key)` where the class declares `Optional[str]`: an absent key
      and an explicit `None` both give no value. */
  function OptionalStringAt(m: map<string, Value>, key: string): (r: Result<Option<string>, DecodeError>)
    ensures r.Ok? <==> key !in m || m[key].Null? || m[key].Str?
    ensures r.Ok? ==> EncodeOptional(r.value) == GetOrNull(m, key)
  {
    if key !in m || m[key].Null? then Ok(None)
    else if m[key].Str? then Ok(Some(m[key].s))
    else Err(WrongType(key))
  }

  /** The value `data.get(key)` returns. */
  function GetOrNull(m: map<string, Value>, key: string): Value
  {
    if key in m then m[key] else Null
  }

  /** The elements a list comprehension `[... for x in data[key]]` visits,
      as far as the outcome goes: a list gives its items; an empty string or an
      empty dictionary gives no elements; a non-empty string or dictionary
      gives strings, on which the element's `from_dict` then fails; a number
      or None is not iterable. */
  function ItemsAt(m: map<string, Value>, key: string): (r: Result<seq<Value>, DecodeError>)
    ensures r.Ok? ==> key in m
    ensures key in m && m[key].List? ==> r == Ok(m[key].items)
  {
    if key !in m then Err(KeyMissing(key))
    else match m[key]
      case List(xs) => Ok(xs)
      case Str(s) => if s == "" then Ok([]) else Err(NotADict)
      case Dict(d) => if d == map[] then Ok([]) else Err(NotADict)
      case _ => Err(NotIterable(key))
  }

  function EncodeOptional(o: Option<string>): Value
  {
    match o
    case None => Null
    case Some(s) => Str(s)
  }

  /** The entries of `m` under the keys a class reads; every other key is
      ignored by `from_dict`. */
  function Restrict(m: map<string, Value>, keys: set<string>): (r: map<string, Value>)
    ensures r.Keys == m.Keys * keys
    ensures forall k :: k in r ==> r[k] == m[k]
  {
    map k | k in m && k in keys :: m[k]
  }

  /** A list comprehension `[decode(x) for x in xs]`: the elements are decoded
      in order and the first failure is raised. */
  function DecodeList<T>(xs: seq<Value>, decode: Value -> Result<T, DecodeError>): (r: Result<seq<T>, DecodeError>)
    ensures r.Ok? <==> forall i :: 0 <= i < |xs| ==> decode(xs[i]).Ok?
    ensures r.Ok? ==> |r.value| == |xs| && forall i :: 0 <= i < |xs| ==> decode(xs[i]) == Ok(r.value[i])
    ensures r.Err? ==> exists i :: 0 <= i < |xs| && decode(xs[i]) == Err(r.error)
  {
    if xs == [] then Ok([])
    else
      var head :- decode(xs[0]);
      var tail :- DecodeList(xs[1..], decode);
      assert forall i :: 1 <= i < |xs| ==> xs[i] == xs[1..][i - 1];
      Ok([head] + tail)
  }

  /** A list comprehension `[encode(x) for x in xs]`. */
  function EncodeList<T>(xs: seq<T>, encode: T -> Value): (r: Value)
    ensures r.List? && |r.items| == |xs|
    ensures forall i :: 0 <= i < |xs| ==> r.items[i] == encode(xs[i])
  {
    List(seq(|xs|, i requires 0 <= i < |xs| => encode(xs[i])))
  }

  /** Decoding a list of encoded elements gives back the elements, in order,
      whenever each element survives its own round trip. */
  lemma DecodeEncodeList<T>(xs: seq<T>, encode: T -> Value, decode: Value -> Result<T, DecodeError>)
    requires forall i :: 0 <= i < |xs| ==> decode(encode(xs[i])) == Ok(xs[i])
    ensures DecodeList(EncodeList(xs, encode).items, decode) == Ok(xs)
  {
    var r := DecodeList(EncodeList(xs, encode).items, decode);
    assert r.Ok?;
    assert r.value == xs;
  }
}
