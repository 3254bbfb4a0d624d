/**
 * Shared vocabulary of the model: bytes, optional values and the
 * UTF-8 encoding Go applies in `[]byte(s)`.
 */
module Common {

  /** A Go `byte`. */
  type byte = b: int | 0 <= b < 256

  /** A Go `[]byte` (a nil slice is the empty sequence). */
  type Bytes = seq<byte>

  /**
   * The content hash (SHA-1 printed as lower-case hex in the source).
   * It is foreign cryptography, so every operation that needs it takes
   * it as a parameter and nothing about it is assumed.
   */
  type Hasher = Bytes -> string

  datatype Option<+T> = None | Some(value: T)

  /** The bytes of `[]byte(s)`: the UTF-8 encoding of `s`. */
  function Utf8(s: string): (r: Bytes)
    ensures |s| <= |r| <= 4 * |s|
  {
    if |s| == 0 then [] else EncodeRune(s[0] as int) + Utf8(s[1..])
  }

  /** The UTF-8 encoding of one Unicode scalar value. */
  function EncodeRune(c: int): (r: Bytes)
    requires 0 <= c < 0x110000
    ensures 1 <= |r| <= 4
  {
    if c < 0x80 then [c]
    else if c < 0x800 then [0xC0 + c / 64, 0x80 + c % 64]
    else if c < 0x10000 then [0xE0 + c / 4096, 0x80 + (c / 64) % 64, 0x80 + c % 64]
    else [0xF0 + c / 262144, 0x80 + (c / 4096) % 64, 0x80 + (c / 64) % 64, 0x80 + c % 64]
  }

  /** The hash the source computes of a URL: `hash([]byte(url))`. */
  function UrlHash(hash: Hasher, url: string): string
  {
    hash(Utf8(url))
  }

  /** Every element of `s` occurs once. */
  predicate Distinct<T(==)>(s: seq<T>)
  {
    forall i, j :: 0 <= i < j < |s| ==> s[i] != s[j]
  }

  /** The elements of a sequence, as a set. */
  function Elements<T>(s: seq<T>): set<T>
  {
    set x | x in s
  }

  /** `m` with every term of `terms` mapped to `h`. */
  function Register(m: map<string, string>, terms: seq<string>, h: string): map<string, string>
  {
    map t | t in m.Keys + Elements(terms) :: if t in terms then h else m[t]
  }

  lemma RegisterSnoc(m: map<string, string>, s: seq<string>, x: string, h: string)
    ensures Register(m, s + [x], h) == Register(m, s, h)[x := h]
  {
    assert Elements(s + [x]) == Elements(s) + {x};
  }

  lemma RegisterAppend(m: map<string, string>, a: seq<string>, b: seq<string>, h: string)
    ensures Register(Register(m, a, h), b, h) == Register(m, a + b, h)
  {
    assert Elements(a + b) == Elements(a) + Elements(b);
  }

  lemma RegisterPair(m: map<string, string>, x: string, y: string, h: string)
    ensures Register(m, [x, y], h) == m[x := h][y := h]
  {
    assert Elements([x, y]) == {x, y};
  }

  lemma ElementsSnoc(s: seq<string>, j: nat)
    requires j < |s|
    ensures Elements(s[..j + 1]) == Elements(s[..j]) + {s[j]}
  {
    assert s[..j + 1] == s[..j] + [s[j]];
  }

  /** Maps each term of `terms` to `h` in turn, as the source's loops over a term list do. */
  method RegisterEach(m: map<string, string>, terms: seq<string>, h: string) returns (r: map<string, string>)
    ensures r == Register(m, terms, h)
  {
    r := m;
    var j := 0;
    while j < |terms|
      invariant 0 <= j <= |terms|
      invariant r == Register(m, terms[..j], h)
    {
      assert terms[..j + 1] == terms[..j] + [terms[j]];
      RegisterSnoc(m, terms[..j], terms[j], h);
      r := r[terms[j] := h];
      j := j + 1;
    }
    assert terms[..j] == terms;
  }
}
