/** Types shared by the generated model classes. */
module Common {

  /** The C++ `int` of the generated code: 32-bit two's complement. */
  newtype int32 = x: int | -0x8000_0000 <= x < 0x8000_0000

  /** An optional value; `None` stands for an absent (null) object. */
  datatype Option<+T> = None | Some(value: T)

  /** A member of a generated model class together with its `...HasBeenSet` flag. */
  datatype Tracked<T> = Tracked(value: T, hasBeenSet: bool)

  /**
    A `const char*` argument, seen as the characters from the pointer onwards:
    it must reach a NUL terminator, and `std::string::assign` copies the
    characters before the first one.
   */
  predicate IsCString(chars: seq<char>) {
    '\0' in chars
  }

  function CStringValue(chars: seq<char>): (s: string)
    requires IsCString(chars)
    ensures |s| < |chars| && chars[..|s|] == s && chars[|s|] == '\0'
    ensures '\0' !in s
    decreases |chars|
  {
    if chars[0] == '\0' then [] else [chars[0]] + CStringValue(chars[1..])
  }

  /** A string without NUL, terminated, reads back as itself whatever follows. */
  lemma CStringOfString(s: string, rest: seq<char>)
    requires '\0' !in s
    ensures IsCString(s + ['\0'] + rest)
    ensures CStringValue(s + ['\0'] + rest) == s
  {
    var chars := s + ['\0'] + rest;
    assert chars[|s|] == '\0';
    assert chars[..|s|] == s;
  }
}
