/** Fixed-width machine integers and the small helpers the platform code
    relies on: 64-bit wrap-around, the ALIGN_UP/ALIGN_DOWN macros, the
    narrowing conversions C performs implicitly, and C strings. */
module Machine {

  const U32_LIMIT: int := 0x1_0000_0000
  const U64_LIMIT: int := 0x1_0000_0000_0000_0000

  type u32 = x: int | 0 <= x < 0x1_0000_0000
  type u64 = x: int | 0 <= x < 0x1_0000_0000_0000_0000

  datatype Option<+T> = None | Some(value: T)

  datatype Result<+T, +E> = Ok(value: T) | Err(error: E)

  /** Unsigned 64-bit arithmetic as C performs it on uint64_t. */
  function Wrap64(x: int): (r: u64)
    ensures 0 <= x < U64_LIMIT ==> r == x
    ensures U64_LIMIT <= x < 2 * U64_LIMIT ==> r == x - U64_LIMIT
    ensures -U64_LIMIT <= x < 0 ==> r == x + U64_LIMIT
  {
    x % U64_LIMIT
  }

  /** `(int)` applied to a value that fits in 32 bits: two's complement. */
  function ToInt32(x: u32): (r: int)
    ensures -0x8000_0000 <= r < 0x8000_0000
    ensures r % U32_LIMIT == x
    ensures r < 0 <==> x >= 0x8000_0000
  {
    if x < 0x8000_0000 then x else x - U32_LIMIT
  }

  /** ALIGN_DOWN(x, a): `x` rounded down to a multiple of `a`. For a
      power-of-two `a` this is the macro's mask x & ~(a - 1); the platform
      code passes only 4096 and 16, both powers of two. */
  function AlignDown(x: u64, a: nat): (r: u64)
    requires a > 0
    ensures r <= x && x - r < a && r % a == 0
  {
    DivMod(x, a);
    x - x % a
  }

  /** x rounded down to a multiple of `a` is itself a multiple of `a`. */
  lemma DivMod(x: nat, a: nat)
    requires a > 0
    ensures (x - x % a) % a == 0
  {
    var y := x - x % a;
    var k := x / a - y / a;
    assert a * k == y % a by {
      assert y == a * (x / a);
      assert y == a * (y / a) + y % a;
    }
    if k >= 1 {
      assert a * k >= a by { MulGrows(a, k); }
    } else if k <= -1 {
      assert a * (-k) >= a by { MulGrows(a, -k); }
    }
  }

  lemma MulGrows(a: nat, k: int)
    requires k >= 1
    ensures a * k >= a
  {
    assert a * k == a + a * (k - 1);
  }

  /** ALIGN_UP(x, a) = ALIGN_DOWN(x + a - 1, a), computed in uint64_t. */
  function AlignUp(x: u64, a: nat): (r: u64)
    requires 0 < a < U64_LIMIT
    ensures r % a == 0
    ensures x + a - 1 < U64_LIMIT ==> x <= r && r - x < a
  {
    AlignDown(Wrap64(x + a - 1), a)
  }

  /** The C string stored in a property value: the characters before the
      first NUL (all of them when the value holds no NUL). */
  function CStr(data: seq<char>): (r: seq<char>)
    ensures |r| <= |data| && r == data[..|r|]
    ensures '\0' !in r
    ensures |r| < |data| ==> data[|r|] == '\0'
  {
    if data == [] || data[0] == '\0' then [] else [data[0]] + CStr(data[1..])
  }

  /** A value whose first NUL is at `m` (or that has none and length `m`)
      holds the C string of its first `m` characters. */
  lemma CStrUpTo(t: seq<char>, m: nat)
    requires m <= |t| && (forall i :: 0 <= i < m ==> t[i] != '\0')
    requires m < |t| ==> t[m] == '\0'
    ensures CStr(t) == t[..m]
  {
    assert |CStr(t)| == m;
  }

  /** strcmp(a, b) == 0 for two NUL-terminated values. */
  predicate StrEq(data: seq<char>, s: seq<char>)
  {
    CStr(data) == s
  }
}
