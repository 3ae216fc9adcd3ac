/** The slice of JavaScript's value model that the SMS client relies on:
    values of any type passed as arguments, plain objects whose keys keep
    their insertion order, arrays, truthiness, property reads and writes,
    and iteration with `for...of`. */
module JsValue {

  datatype Option<T> = None | Some(value: T)

  /** A JavaScript value. Objects are their own properties in insertion
      order; numbers are integers (the client only ever creates 0 and 1);
      `Error(name)` stands for a native error object such as a TypeError. */
  datatype Value =
    | Undefined
    | Null
    | Bool(b: bool)
    | Num(n: int)
    | Str(s: string)
    | Obj(fields: seq<(string, Value)>)
    | List(items: seq<Value>)
    | Error(name: string)

  /** How a JavaScript evaluation ends: with a value, or with a thrown
      exception (for an `async` function, a rejected promise). */
  datatype Completion = Normal(value: Value) | Throw(exception: Value)

  /** The exception `for...of` or a property read on undefined/null raises. */
  const TypeError: Value := Error("TypeError")

  /** JavaScript's ToBoolean. */
  predicate Truthy(v: Value)
  {
    match v
    case Undefined => false
    case Null => false
    case Bool(b) => b
    case Num(n) => n != 0
    case Str(s) => s != ""
    case Obj(_) => true
    case List(_) => true
    case Error(_) => true
  }

  predicate Nullish(v: Value)
  {
    v.Undefined? || v.Null?
  }

  /** The keys of an object, in insertion order. */
  function Keys(fields: seq<(string, Value)>): seq<string>
  {
    seq(|fields|, i requires 0 <= i < |fields| => fields[i].0)
  }

  /** The value stored under `key`: the first entry with that key. */
  function Lookup(fields: seq<(string, Value)>, key: string): (r: Option<Value>)
    ensures r.None? <==> key !in Keys(fields)
  {
    if fields == [] then None
    else
      assert Keys(fields) == [fields[0].0] + Keys(fields[1..]);
      if fields[0].0 == key then Some(fields[0].1)
      else Lookup(fields[1..], key)
  }

  /** An entry whose key no earlier entry has is the one a read finds. */
  lemma {:induction false} LookupAt(fields: seq<(string, Value)>, i: nat)
    requires i < |fields|
    requires forall j :: 0 <= j < i ==> fields[j].0 != fields[i].0
    ensures Lookup(fields, fields[i].0) == Some(fields[i].1)
  {
    if i > 0 {
      LookupAt(fields[1..], i - 1);
    }
  }

  /** Property read `v.key` on a value that is neither undefined nor null:
      an own property of an object, `undefined` for anything else. */
  function Get(v: Value, key: string): Value
  {
    if v.Obj? then
      match Lookup(v.fields, key)
      case Some(x) => x
      case None => Undefined
    else Undefined
  }

  /** Property read `v.key` as an expression: throws a TypeError when `v`
      is undefined or null. */
  function Member(v: Value, key: string): (c: Completion)
    ensures c.Throw? <==> Nullish(v)
    ensures c.Throw? ==> c.exception == TypeError
    ensures c.Normal? ==> c.value == Get(v, key)
  {
    if Nullish(v) then Throw(TypeError) else Normal(Get(v, key))
  }

  /** Property assignment `o.key = val` on an object's entries: an existing
      key keeps its place, a new key goes last. */
  function Put(fields: seq<(string, Value)>, key: string, val: Value): (r: seq<(string, Value)>)
    ensures Lookup(r, key) == Some(val)
    ensures forall k :: k != key ==> Lookup(r, k) == Lookup(fields, k)
    ensures Keys(r) == if key in Keys(fields) then Keys(fields) else Keys(fields) + [key]
  {
    if fields == [] then [(key, val)]
    else
      assert Keys(fields) == [fields[0].0] + Keys(fields[1..]);
      if fields[0].0 == key then
        var r := [(key, val)] + fields[1..];
        assert Keys(r) == [key] + Keys(fields[1..]);
        r
      else
        var rest := Put(fields[1..], key, val);
        var r := [fields[0]] + rest;
        assert Keys(r) == [fields[0].0] + Keys(rest);
        r
  }

  /** A read after `o.key = val` sees `val` under `key` and the old value
      under every other key. */
  lemma MemberAfterPut(fields: seq<(string, Value)>, key: string, val: Value, other: string)
    ensures Member(Obj(Put(fields, key, val)), key) == Normal(val)
    ensures other != key ==> Member(Obj(Put(fields, key, val)), other) == Member(Obj(fields), other)
  {
  }

  /** Assigning a key the object does not have yet appends one entry. */
  lemma {:induction false} PutNewKey(fields: seq<(string, Value)>, key: string, val: Value)
    requires key !in Keys(fields)
    ensures Put(fields, key, val) == fields + [(key, val)]
  {
    if fields != [] {
      assert Keys(fields)[0] == fields[0].0 != key;
      assert key !in Keys(fields[1..]) by {
        assert Keys(fields[1..]) == Keys(fields)[1..];
      }
      PutNewKey(fields[1..], key, val);
      calc {
        Put(fields, key, val);
        [fields[0]] + Put(fields[1..], key, val);
        [fields[0]] + (fields[1..] + [(key, val)]);
        { assert fields == [fields[0]] + fields[1..]; }
        fields + [(key, val)];
      }
    }
  }

  /** The sequence `for (x of v)` walks: an array's elements, a string's
      characters one by one; None where the loop throws a TypeError. */
  function Iterate(v: Value): Option<seq<Value>>
  {
    match v
    case List(items) => Some(items)
    case Str(s) => Some(seq(|s|, i requires 0 <= i < |s| => Str([s[i]])))
    case _ => None
  }

  /** The strings among `parts`, joined in order. */
  function Concat(parts: seq<Value>): string
  {
    if parts == [] then ""
    else (if parts[0].Str? then parts[0].s else "") + Concat(parts[1..])
  }

  /** Walking a string yields one-character strings that join back to it. */
  lemma {:induction false} IterateStringRoundTrip(s: string)
    ensures Iterate(Str(s)).Some?
    ensures forall p :: p in Iterate(Str(s)).value ==> p.Str? && |p.s| == 1
    ensures Concat(Iterate(Str(s)).value) == s
  {
    if s != [] {
      IterateStringRoundTrip(s[1..]);
      var parts := Iterate(Str(s)).value;
      assert parts[1..] == Iterate(Str(s[1..])).value;
      assert parts[0] == Str([s[0]]);
      assert s == [s[0]] + s[1..];
    }
  }
}
