/** The slice of Python semantics that the translation handler relies on:
    the values `json.loads` produces, their truth value (`not body`),
    the `in` operator, subscripting with a string key, `dict.get` and
    `str.strip()` without arguments. */
module Python {

  datatype Option<+T> = None | Some(value: T)

  /** A Python value as `json.loads` builds it (or as an API Gateway event
      carries it already decoded): `None`, `bool`, `int`/`float`, `str`,
      `list` and `dict` with string keys. */
  datatype Value =
    | Null
    | Bool(b: bool)
    | Number(n: real)
    | Str(s: string)
    | List(items: seq<Value>)
    | Dict(entries: map<string, Value>)

  /** The built-in exceptions the handler's own code can raise. */
  datatype Exception = TypeError | KeyError | JsonDecodeError

  /** The result of evaluating a Python expression: a value or a raised exception. */
  datatype Try<+T> = Returns(value: T) | Raises(error: Exception)

  /** `bool(v)`: empty containers, zero, `False` and `None` are false. */
  predicate Truthy(v: Value): (r: bool)
    ensures !r <==> v in {Null, Bool(false), Number(0.0), Str(""), List([]), Dict(map[])}
  {
    match v
    case Null => false
    case Bool(b) => b
    case Number(n) => n != 0.0
    case Str(s) => s != []
    case List(items) => items != []
    case Dict(entries) => entries != map[]
  }

  /** `sub in s` for two strings: `sub` occurs in `s` as a contiguous run. */
  predicate IsSubstring(sub: string, s: string)
    decreases |s|
  {
    sub <= s || (s != [] && IsSubstring(sub, s[1..]))
  }

  /** `IsSubstring` agrees with the textbook definition: some suffix of `s`
      starts with `sub`. */
  lemma {:induction false} IsSubstringIff(sub: string, s: string)
    ensures IsSubstring(sub, s) <==> exists i | 0 <= i <= |s| :: sub <= s[i..]
    decreases |s|
  {
    if s == [] {
      assert s[0..] == s;
    } else {
      IsSubstringIff(sub, s[1..]);
      if IsSubstring(sub, s) {
        if sub <= s {
          assert s[0..] == s;
        } else {
          var j :| 0 <= j <= |s[1..]| && sub <= s[1..][j..];
          assert s[1..][j..] == s[j + 1..];
        }
      } else {
        forall i | 0 <= i <= |s|
          ensures !(sub <= s[i..])
        {
          if i == 0 {
            assert s[0..] == s;
          } else {
            assert s[1..][i - 1..] == s[i..];
          }
        }
      }
    }
  }

  /** `key in container` with a string on the left: key membership for a
      dict, element equality for a list, substring search for a str; any
      other truthy operand is not iterable and raises TypeError. */
  function Contains(key: string, container: Value): (r: Try<bool>)
    ensures r.Raises? <==> container.Null? || container.Bool? || container.Number?
    ensures r.Raises? ==> r.error == TypeError
    ensures container.Dict? ==> r == Returns(key in container.entries)
    ensures container.List? ==> r == Returns(Str(key) in container.items)
    ensures container.Str? ==>
              r == Returns(exists i | 0 <= i <= |container.s| :: key <= container.s[i..])
  {
    match container
    case Dict(entries) => Returns(key in entries)
    case List(items) => Returns(Str(key) in items)
    case Str(s) =>
      IsSubstringIff(key, s);
      Returns(IsSubstring(key, s))
    case _ => Raises(TypeError)
  }

  /** `container[key]` with a string key: only a dict accepts one, and only
      for a key it holds. */
  function GetItem(container: Value, key: string): (r: Try<Value>)
    ensures r.Returns? <==> container.Dict? && key in container.entries
    ensures r.Returns? ==> r.value == container.entries[key]
    ensures r.Raises? ==> r.error == (if container.Dict? then KeyError else TypeError)
  {
    match container
    case Dict(entries) => if key in entries then Returns(entries[key]) else Raises(KeyError)
    case _ => Raises(TypeError)
  }

  /** `d.get(key, default)`. */
  function DictGet(entries: map<string, Value>, key: string, default: Value): (r: Value)
    ensures key in entries ==> r == entries[key]
    ensures key !in entries ==> r == default
  {
    if key in entries then entries[key] else default
  }

  /** `c.isspace()` for one character: the characters `str.strip()` removes
      when called without arguments (Unicode White_Space plus the four
      information separators U+001C..U+001F). */
  predicate IsSpace(c: char): (r: bool)
    ensures r <==> c as int in WhitespaceCodePoints
  {
    var n := c as int;
    (0x09 <= n <= 0x0D) || (0x1C <= n <= 0x20) || n == 0x85 || n == 0xA0
    || n == 0x1680 || (0x2000 <= n <= 0x200A) || n == 0x2028 || n == 0x2029
    || n == 0x202F || n == 0x205F || n == 0x3000
  }

  /** The 29 code points for which `str.isspace()` holds, one by one. */
  const WhitespaceCodePoints: set<int> := {
    0x09, 0x0A, 0x0B, 0x0C, 0x0D, 0x1C, 0x1D, 0x1E, 0x1F, 0x20, 0x85, 0xA0, 0x1680,
    0x2000, 0x2001, 0x2002, 0x2003, 0x2004, 0x2005, 0x2006, 0x2007, 0x2008, 0x2009, 0x200A,
    0x2028, 0x2029, 0x202F, 0x205F, 0x3000}

  /** The string has a character that is not whitespace. */
  predicate HasContent(s: string)
  {
    exists i | 0 <= i < |s| :: !IsSpace(s[i])
  }

  /** Length of the whitespace run at the start of `s`. */
  function LeadingSpaces(s: string): (n: nat)
    ensures n <= |s|
    ensures forall i | 0 <= i < n :: IsSpace(s[i])
    ensures n < |s| ==> !IsSpace(s[n])
  {
    if s == [] || !IsSpace(s[0]) then 0 else 1 + LeadingSpaces(s[1..])
  }

  /** Length of the whitespace run at the end of `s`. */
  function TrailingSpaces(s: string): (n: nat)
    ensures n <= |s|
    ensures forall i | |s| - n <= i < |s| :: IsSpace(s[i])
    ensures n < |s| ==> !IsSpace(s[|s| - 1 - n])
  {
    if s == [] || !IsSpace(s[|s| - 1]) then 0 else 1 + TrailingSpaces(s[..|s| - 1])
  }

  /** `s.strip()`: `s` without its leading and trailing whitespace. The
      result is the slice of `s` that follows the leading whitespace and
      precedes only whitespace; it is empty exactly when `s` is blank, and
      otherwise starts and ends with a non-whitespace character. */
  function Strip(s: string): (r: string)
    ensures |r| <= |s|
    ensures r == [] <==> !HasContent(s)
    ensures r != [] ==> !IsSpace(r[0]) && !IsSpace(r[|r| - 1])
    ensures LeadingSpaces(s) + |r| <= |s|
    ensures r == s[LeadingSpaces(s)..LeadingSpaces(s) + |r|]
    ensures forall i | LeadingSpaces(s) + |r| <= i < |s| :: IsSpace(s[i])
  {
    var rest := s[LeadingSpaces(s)..];
    assert rest != [] ==> rest[0] == s[LeadingSpaces(s)];
    rest[..|rest| - TrailingSpaces(rest)]
  }
}
