/**
 * The JavaScript values the two map scripts manipulate: option bags parsed
 * from JSON, their truthiness, the `||` default idiom, template-literal
 * interpolation, `String.prototype.split` / `Array.prototype.join`, and the
 * exceptions a script can raise.
 */
module JsValues {

  datatype Option<+T> = None | Some(value: T)

  /** An exception thrown by a script, or a value. */
  datatype Fault =
    | TypeError(reason: string)     // property access on null/undefined
    | ConfigError(message: string)  // an explicit `throw new Error(...)`

  datatype Result<+T> = Ok(value: T) | Err(fault: Fault)

  /**
   * A JSON-like JavaScript value as found in a marker's option bag.
   * Numbers in option bags are modelled as integers (icon sizes, anchors).
   */
  datatype Js =
    | JUndefined
    | JNull
    | JBool(b: bool)
    | JNum(n: int)
    | JStr(s: string)
    | JArr(items: seq<Js>)

  /**
   * One coordinate component as handed to Leaflet: a JSON number, a string
   * (from a comma split or a PHP string), null, or undefined (an index past
   * the end of an array). Compared only with strict equality.
   */
  datatype Coord = CNum(r: real) | CStr(s: string) | CNull | CUndefined

  /** `coords[i]` on a JavaScript array: undefined past the end. */
  function CoordAt(coords: seq<Coord>, i: nat): (c: Coord)
    ensures i < |coords| ==> c == coords[i]
    ensures i >= |coords| ==> c == CUndefined
  {
    if i < |coords| then coords[i] else CUndefined
  }

  /** JavaScript truthiness. */
  predicate Truthy(v: Js) {
    match v
    case JUndefined => false
    case JNull => false
    case JBool(b) => b
    case JNum(n) => n != 0
    case JStr(s) => s != ""
    case JArr(_) => true
  }

  /** `a || b`: the first operand when it is truthy, otherwise the second. */
  function Or(a: Js, b: Js): (r: Js)
    ensures Truthy(a) ==> r == a
    ensures !Truthy(a) ==> r == b
  {
    if Truthy(a) then a else b
  }

  /** `bag.key` on a plain object: undefined when the key is absent. */
  function Lookup(bag: map<string, Js>, key: string): (v: Js)
    ensures key in bag ==> v == bag[key]
    ensures key !in bag ==> v == JUndefined
  {
    if key in bag then bag[key] else JUndefined
  }

  function Digit(d: nat): char
    requires d < 10
  {
    "0123456789"[d]
  }

  function NatText(n: nat): (r: string)
    ensures |r| >= 1
    decreases n
  {
    if n < 10 then [Digit(n)] else NatText(n / 10) + [Digit(n % 10)]
  }

  /** `String(n)` for an integer. */
  function IntText(n: int): string {
    if n < 0 then "-" + NatText(-n) else NatText(n)
  }

  /** `String(v)`, as a template literal `${v}` renders it. */
  function ToText(v: Js): string
    decreases v
  {
    match v
    case JUndefined => "undefined"
    case JNull => "null"
    case JBool(b) => if b then "true" else "false"
    case JNum(n) => IntText(n)
    case JStr(s) => s
    case JArr(items) =>
      // Array.prototype.toString joins with "," and renders null/undefined as ""
      Join(seq(|items|, i requires 0 <= i < |items| =>
                 if items[i].JUndefined? || items[i].JNull? then "" else ToText(items[i])), ",")
  }

  /** `parts.join(sep)` in JavaScript, `implode(sep, parts)` in PHP. */
  function Join(parts: seq<string>, sep: string): string
    decreases |parts|
  {
    if |parts| == 0 then ""
    else if |parts| == 1 then parts[0]
    else parts[0] + sep + Join(parts[1..], sep)
  }

  /**
   * `s.split(sep)` for a one-character separator: the maximal runs between
   * separators, always at least one field (`"".split(",")` is `[""]`).
   */
  function Split(s: string, sep: char): (fields: seq<string>)
    ensures |fields| >= 1
    ensures forall i :: 0 <= i < |fields| ==> sep !in fields[i]
    decreases |s|
  {
    if s == [] then [""]
    else if s[0] == sep then [""] + Split(s[1..], sep)
    else
      var rest := Split(s[1..], sep);
      [[s[0]] + rest[0]] + rest[1..]
  }

  /** Splitting and re-joining with the same separator gives the string back. */
  lemma {:induction false} JoinSplit(s: string, sep: char)
    ensures Join(Split(s, sep), [sep]) == s
    decreases |s|
  {
    if s == [] {
    } else if s[0] == sep {
      JoinSplit(s[1..], sep);
      var rest := Split(s[1..], sep);
      assert Split(s, sep) == [""] + rest;
      assert ([""] + rest)[1..] == rest;
    } else {
      JoinSplit(s[1..], sep);
      var rest := Split(s[1..], sep);
      var fields := [[s[0]] + rest[0]] + rest[1..];
      assert Split(s, sep) == fields;
      if |rest| == 1 {
        assert Join(rest, [sep]) == rest[0];
      } else {
        assert fields[1..] == rest[1..];
        assert Join(rest, [sep]) == rest[0] + [sep] + Join(rest[1..], [sep]);
      }
      assert [s[0]] + s[1..] == s;
    }
  }

  /** A separator-free string is a single field. */
  lemma {:induction false} SplitSingle(a: string, sep: char)
    requires sep !in a
    ensures Split(a, sep) == [a]
    decreases |a|
  {
    if a != [] {
      SplitSingle(a[1..], sep);
      assert [a[0]] + a[1..] == a;
    }
  }

  /** A separator-free prefix followed by a separator is the first field. */
  lemma {:induction false} SplitFirst(a: string, sep: char, rest: string)
    requires sep !in a
    ensures Split(a + [sep] + rest, sep) == [a] + Split(rest, sep)
    decreases |a|
  {
    if a == [] {
      assert a + [sep] + rest == [sep] + rest;
      assert ([sep] + rest)[1..] == rest;
    } else {
      var s := a + [sep] + rest;
      assert s[0] == a[0] && s[1..] == a[1..] + [sep] + rest;
      SplitFirst(a[1..], sep, rest);
      assert [a[0]] + a[1..] == a;
    }
  }

  /**
   * Joining separator-free fields and splitting again gives the fields back:
   * the round trip between PHP's `implode(',', ...)` and JavaScript's
   * `split(',')`.
   */
  lemma {:induction false} SplitJoin(parts: seq<string>, sep: char)
    requires |parts| >= 1
    requires forall i :: 0 <= i < |parts| ==> sep !in parts[i]
    ensures Split(Join(parts, [sep]), sep) == parts
    decreases |parts|
  {
    if |parts| == 1 {
      SplitSingle(parts[0], sep);
    } else {
      SplitJoin(parts[1..], sep);
      SplitFirst(parts[0], sep, Join(parts[1..], [sep]));
      assert [parts[0]] + parts[1..] == parts;
    }
  }
}
