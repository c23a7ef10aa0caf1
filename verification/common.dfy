/** Shared vocabulary of the emulator model: outcomes, optional values and
    byte/word helpers used by every component. */
module Common {

  /** What an operation of the emulator can end in: a value, a recoverable
      error (the source's `Err`/`bail!`), or a panic (`panic!`, `assert!`,
      `unimplemented!`, an index out of bounds) that would abort the process. */
  datatype Outcome<+T> = Ok(value: T) | Err(error: string) | Panic(reason: string) {
    predicate IsFailure() {
      !Ok?
    }

    function PropagateFailure<U>(): Outcome<U>
      requires !Ok?
    {
      if Err? then Err(error) else Panic(reason)
    }

    function Extract(): T
      requires Ok?
    {
      value
    }
  }

  datatype Option<+T> = None | Some(value: T)

  /** Low byte of a 16-bit word. */
  function Lo(w: bv16): bv8 {
    (w & 0xFF) as bv8
  }

  /** High byte of a 16-bit word. */
  function Hi(w: bv16): bv8 {
    (w >> 8) as bv8
  }

  /** The word with the given high and low bytes. */
  function Word(hi: bv8, lo: bv8): bv16 {
    ((hi as bv16) << 8) | (lo as bv16)
  }

  lemma WordRoundTrip(w: bv16, hi: bv8, lo: bv8)
    ensures Word(Hi(w), Lo(w)) == w
    ensures Hi(Word(hi, lo)) == hi && Lo(Word(hi, lo)) == lo
  {
  }

  /** Bit `n` of a byte as a boolean. */
  function Bit(b: bv8, n: nat): bool
    requires n < 8
  {
    (b >> n) & 1 == 1
  }

  function BoolBit(b: bool): bv8 {
    if b then 1 else 0
  }

  lemma MulAtLeast(k: int, d: int)
    requires k >= 1 && d > 0
    ensures k * d >= d
  {
    assert k * d == (k - 1) * d + d;
    assert (k - 1) * d >= 0;
  }

  /** Euclidean division is unique: a quotient and an in-range remainder
      that rebuild `x` are the ones `/` and `%` give. */
  lemma DivModOf(x: int, d: int, q: int, r: int)
    requires 0 < d && x == q * d + r && 0 <= r < d
    ensures x % d == r && x / d == q
  {
    var q0 := x / d;
    var r0 := x % d;
    assert (q - q0) * d == r0 - r;
    if q > q0 {
      MulAtLeast(q - q0, d);
    } else if q < q0 {
      MulAtLeast(q0 - q, d);
    }
  }

  lemma SmallMod(x: int, d: int)
    requires 0 <= x < d
    ensures x % d == x
  {
  }

  lemma Distribute(x: int, y: int, z: int)
    ensures (x + y) * z == x * z + y * z
  {
  }

  /** The byte holding a number below 256. */
  function ByteOf(n: nat): (b: bv8)
    requires n < 256
    ensures b as nat == n
  {
    if n == 0 then 0 else ByteOf(n - 1) + 1
  }

  /** Decimal digits of a number, as `{}` formats it. */
  function Decimal(n: nat): (s: string)
    ensures |s| > 0 && forall i :: 0 <= i < |s| ==> '0' <= s[i] <= '9'
  {
    var digit := ['0' + (n % 10) as char];
    if n < 10 then digit else Decimal(n / 10) + digit
  }
}
