/** The Python built-ins the example tool applies to JSON values: the `in`
    test, indexing with a string key, `len`, and the exceptions they raise.
    Error messages are those of CPython 3.11 to 3.13. */
module Python {
  import opened Json

  datatype Exception =
    | ValueError(msg: string)
    | TypeError(msg: string)
    | KeyError(key: string)
  {
    /** `type(e).__name__` */
    function Name(): string
    {
      match this
      case ValueError(_) => "ValueError"
      case TypeError(_) => "TypeError"
      case KeyError(_) => "KeyError"
    }

    /** `str(e)`; a KeyError shows its key quoted. */
    function Message(): string
    {
      match this
      case ValueError(m) => m
      case TypeError(m) => m
      case KeyError(k) => "'" + k + "'"
    }
  }

  /** What a Python expression does: yields a value or raises. */
  datatype Outcome<+T> = Ok(value: T) | Raised(exc: Exception)

  /** `type(v).__name__` */
  function TypeName(v: Value): string
  {
    match v
    case Null => "NoneType"
    case Bool(_) => "bool"
    case Int(_) => "int"
    case Str(_) => "str"
    case Arr(_) => "list"
    case Obj(_) => "dict"
  }

  /** `k in s` for two strings: whether `k` occurs in `s` as a contiguous run. */
  function IsSubstring(k: string, s: string): bool
    decreases |s|
  {
    if |k| > |s| then false
    else if s[..|k|] == k then true
    else |s| > 0 && IsSubstring(k, s[1..])
  }

  /** `k` occurs in `s` starting at position `i`. */
  predicate OccursAt(k: string, s: string, i: nat)
  {
    i + |k| <= |s| && s[i..i + |k|] == k
  }

  /** `IsSubstring` finds `k` exactly when `k` starts at some position of `s`. */
  lemma {:induction false} SubstringAt(k: string, s: string)
    ensures IsSubstring(k, s) <==> exists i: nat :: OccursAt(k, s, i)
    decreases |s|
  {
    if |k| > |s| {
      forall i: nat ensures !OccursAt(k, s, i) { }
    } else if s[..|k|] == k {
      assert OccursAt(k, s, 0);
    } else {
      assert |s| > 0 by { assert s[..0] == []; }
      SubstringAt(k, s[1..]);
      if IsSubstring(k, s) {
        var i: nat :| OccursAt(k, s[1..], i);
        assert s[1..][i..i + |k|] == s[i + 1..i + 1 + |k|];
        assert OccursAt(k, s, i + 1);
      } else {
        forall i: nat ensures !OccursAt(k, s, i) {
          if i > 0 && i + |k| <= |s| {
            assert s[i..i + |k|] == s[1..][i - 1..i - 1 + |k|];
            assert !OccursAt(k, s[1..], i - 1);
          }
        }
      }
    }
  }

  /** `key in container`: a dict tests its keys, a list its elements, a string
      its substrings; anything else is not iterable. */
  function In(key: string, container: Value): Outcome<bool>
  {
    match container
    case Obj(fs) => Ok(key in Keys(fs))
    case Arr(es) => Ok(Str(key) in es)
    case Str(s) => Ok(IsSubstring(key, s))
    case _ => Raised(TypeError("argument of type '" + TypeName(container) + "' is not iterable"))
  }

  /** `container[key]` with a string key. */
  function GetItem(container: Value, key: string): Outcome<Value>
  {
    match container
    case Obj(fs) => if key in Keys(fs) then Ok(Lookup(fs, key).value) else Raised(KeyError(key))
    case Arr(_) => Raised(TypeError("list indices must be integers or slices, not str"))
    case Str(_) => Raised(TypeError("string indices must be integers, not 'str'"))
    case _ => Raised(TypeError("'" + TypeName(container) + "' object is not subscriptable"))
  }

  /** `len(v)`: characters of a string, elements of a list, entries of a dict. */
  function Len(v: Value): Outcome<nat>
  {
    match v
    case Str(s) => Ok(|s|)
    case Arr(es) => Ok(|es|)
    case Obj(fs) => Ok(|fs|)
    case _ => Raised(TypeError("object of type '" + TypeName(v) + "' has no len()"))
  }
}
