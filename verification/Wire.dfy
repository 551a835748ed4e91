/** JSON values, file bodies, SHA-256 digests and the checks on wire identifiers.

    Hashing is symbolic: a digest is a constructor applied to the hashed body, so
    equal digests have equal preimages, and the all-zero digest is the hash of
    nothing. A body is either the canonical encoding of a value or any other text
    with whatever it parses to, so decoding a canonical encoding gives the value
    back. */
module Wire {
  import opened Wrappers

  datatype Json =
    | Null
    | Bool(b: bool)
    | Int(n: int)
    | Real(r: real)
    | Str(s: string)
    | Hex(d: Digest) // a string that is the hexadecimal text of a digest
    | Arr(items: seq<Json>)
    | Obj(fields: map<string, Json>)

  datatype Blob =
    | Canon(value: Json)
    | Other(tag: nat, parsed: Option<Json>)

  datatype Digest =
    | Zeros
    | Sha(of: Blob)

  /** Strict parsing of a complete JSON object. */
  function ParseObject(body: Blob): Option<map<string, Json>> {
    match body
    case Canon(Obj(fields)) => Some(fields)
    case Other(_, Some(Obj(fields))) => Some(fields)
    case _ => None
  }

  /** The value under a key, with null for an absent key. */
  function Get(fields: map<string, Json>, key: string): Json {
    if key in fields then fields[key] else Null
  }

  /** Equality of a JSON value with an integer, where 1, 1.0 and true are equal. */
  predicate EqualsInt(j: Json, n: int) {
    j == Int(n) || j == Real(n as real) || (j == Bool(true) && n == 1) || (j == Bool(false) && n == 0)
  }

  /** An integer within bounds; a Boolean or a float is not one. */
  predicate InRange(j: Json, low: int, high: int) {
    j.Int? && low <= j.n <= high
  }

  /** The characters that stripping removes. */
  predicate IsSpace(c: char) {
    var n := c as int;
    9 <= n <= 13 || 28 <= n <= 32 || n == 133 || n == 160 || n == 5760 || 8192 <= n <= 8202
    || n == 8232 || n == 8233 || n == 8239 || n == 8287 || n == 12288
  }

  /** A string that is not blank. */
  predicate IsText(j: Json) {
    j.Hex? || (j.Str? && exists i :: 0 <= i < |j.s| && !IsSpace(j.s[i]))
  }

  predicate IsLower(c: char) {
    'a' <= c <= 'z'
  }

  predicate IsDigit(c: char) {
    '0' <= c <= '9'
  }

  predicate IsReserved(s: string) {
    || s in {"con", "prn", "aux", "nul"}
    || (|s| == 4 && s[..3] in {"com", "lpt"} && '1' <= s[3] <= '9')
  }

  /** A lowercase identifier of 1 to 48 characters that is not a device name. */
  predicate IsName(s: string) {
    && 1 <= |s| <= 48
    && IsLower(s[0])
    && (forall i :: 1 <= i < |s| ==> IsLower(s[i]) || IsDigit(s[i]) || s[i] == '_' || s[i] == '-')
    && !IsReserved(s)
  }

  predicate IsNameValue(j: Json) {
    j.Str? && IsName(j.s)
  }
}
