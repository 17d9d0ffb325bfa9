/** Bytes and the fixed-width integer encodings used by the loader. */
module Bytes {

  type Byte = x: int | 0 <= x < 256

  /** Largest value of a 64-bit `usize` (the loader runs on a 64-bit target). */
  const USIZE_MAX: nat := 0xFFFF_FFFF_FFFF_FFFF
  /** A Rust slice never holds more than `isize::MAX` elements. */
  const ISIZE_MAX: nat := 0x7FFF_FFFF_FFFF_FFFF
  const U64_LIMIT: nat := 0x1_0000_0000_0000_0000
  const U32_LIMIT: nat := 0x1_0000_0000

  function Pow256(k: nat): (r: nat)
    ensures r >= 1
  {
    if k == 0 then 1 else 256 * Pow256(k - 1)
  }

  lemma Pow256Values()
    ensures Pow256(4) == U32_LIMIT
    ensures Pow256(8) == U64_LIMIT
  {
    assert Pow256(1) == 256;
    assert Pow256(2) == 0x1_0000;
    assert Pow256(3) == 0x100_0000;
    assert Pow256(4) == 0x1_0000_0000;
    assert Pow256(5) == 0x100_0000_0000;
    assert Pow256(6) == 0x1_0000_0000_0000;
    assert Pow256(7) == 0x100_0000_0000_0000;
  }

  lemma {:induction false} Pow256Monotone(a: nat, b: nat)
    requires a <= b
    ensures Pow256(a) <= Pow256(b)
  {
    if a < b {
      Pow256Monotone(a, b - 1);
    }
  }

  function Zeros(n: nat): (r: seq<Byte>)
    ensures |r| == n && forall i :: 0 <= i < n ==> r[i] == 0
  {
    seq(n, _ => 0)
  }

  /** The unsigned value of `s` read most significant byte first. */
  function BigEndian(s: seq<Byte>): nat
  {
    if s == [] then 0 else BigEndian(s[..|s| - 1]) * 256 + s[|s| - 1]
  }

  /** The `k` low bytes of `n`, most significant first. */
  function ToBigEndian(n: nat, k: nat): (r: seq<Byte>)
    ensures |r| == k
  {
    if k == 0 then [] else ToBigEndian(n / 256, k - 1) + [n % 256]
  }

  /** The unsigned value of `s` read least significant byte first. */
  function LittleEndian(s: seq<Byte>): nat
  {
    if s == [] then 0 else s[0] + 256 * LittleEndian(s[1..])
  }

  /** The `k` low bytes of `n`, least significant first. */
  function ToLittleEndian(n: nat, k: nat): (r: seq<Byte>)
    ensures |r| == k
  {
    if k == 0 then [] else [n % 256] + ToLittleEndian(n / 256, k - 1)
  }

  lemma {:induction false} BigEndianBound(s: seq<Byte>)
    ensures BigEndian(s) < Pow256(|s|)
  {
    if s != [] {
      var init := s[..|s| - 1];
      BigEndianBound(init);
      assert BigEndian(init) <= Pow256(|s| - 1) - 1;
      calc {
        BigEndian(s);
        BigEndian(init) * 256 + s[|s| - 1];
      <= (Pow256(|s| - 1) - 1) * 256 + 255;
        Pow256(|s|) - 1;
      }
    }
  }

  lemma {:induction false} LittleEndianBound(s: seq<Byte>)
    ensures LittleEndian(s) < Pow256(|s|)
  {
    if s != [] {
      LittleEndianBound(s[1..]);
      assert LittleEndian(s[1..]) <= Pow256(|s| - 1) - 1;
    }
  }

  /** Decoding inverts encoding for every value that fits in `k` bytes. */
  lemma {:induction false} BigEndianOfToBigEndian(n: nat, k: nat)
    requires n < Pow256(k)
    ensures BigEndian(ToBigEndian(n, k)) == n
  {
    if k > 0 {
      var hi := ToBigEndian(n / 256, k - 1);
      assert n / 256 < Pow256(k - 1);
      BigEndianOfToBigEndian(n / 256, k - 1);
      assert (hi + [n % 256])[..k - 1] == hi;
    }
  }

  /** Encoding inverts decoding. */
  lemma {:induction false} ToBigEndianOfBigEndian(s: seq<Byte>)
    ensures ToBigEndian(BigEndian(s), |s|) == s
  {
    if s != [] {
      var init := s[..|s| - 1];
      var x := s[|s| - 1];
      ToBigEndianOfBigEndian(init);
      assert (BigEndian(init) * 256 + x) / 256 == BigEndian(init);
      assert (BigEndian(init) * 256 + x) % 256 == x;
      assert s == init + [x];
    }
  }

  lemma {:induction false} LittleEndianOfToLittleEndian(n: nat, k: nat)
    requires n < Pow256(k)
    ensures LittleEndian(ToLittleEndian(n, k)) == n
  {
    if k > 0 {
      assert n / 256 < Pow256(k - 1);
      LittleEndianOfToLittleEndian(n / 256, k - 1);
      assert ([n % 256] + ToLittleEndian(n / 256, k - 1))[1..] == ToLittleEndian(n / 256, k - 1);
    }
  }

  lemma {:induction false} ToLittleEndianOfLittleEndian(s: seq<Byte>)
    ensures ToLittleEndian(LittleEndian(s), |s|) == s
  {
    if s != [] {
      var rest := s[1..];
      ToLittleEndianOfLittleEndian(rest);
      assert (s[0] + 256 * LittleEndian(rest)) % 256 == s[0];
      assert (s[0] + 256 * LittleEndian(rest)) / 256 == LittleEndian(rest);
      assert s == [s[0]] + rest;
    }
  }

  /** A value below 256 is zero bytes followed by the value itself. */
  lemma {:induction false} ToBigEndianSmall(n: nat, k: nat)
    requires n < 256 && k > 0
    ensures ToBigEndian(n, k) == Zeros(k - 1) + [n]
  {
    if k > 1 {
      ToBigEndianZero(k - 1);
    }
  }

  lemma {:induction false} ToBigEndianZero(k: nat)
    ensures ToBigEndian(0, k) == Zeros(k)
  {
    if k > 0 {
      ToBigEndianZero(k - 1);
    }
  }
}

/** Failure-compatible result types. */
module Results {

  datatype Option<T> = None | Some(value: T)

  datatype Result<T, E> = Success(value: T) | Failure(error: E) {
    predicate IsFailure() { Failure? }

    function PropagateFailure<U>(): Result<U, E>
      requires Failure?
    {
      Failure(error)
    }

    function Extract(): T
      requires Success?
    {
      value
    }
  }

  datatype Outcome<E> = Pass | Fail(error: E) {
    predicate IsFailure() { Fail? }

    function PropagateFailure(): Outcome<E>
      requires Fail?
    {
      this
    }
  }

  /** Whether `r` succeeded, keeping only its error. */
  function ToOutcome<T, E>(r: Result<T, E>): Outcome<E>
  {
    if r.Failure? then Fail(r.error) else Pass
  }

  /** The value of `r`, or `default` where it failed. */
  function ValueOr<T, E>(r: Result<T, E>, default: T): T
  {
    if r.Success? then r.value else default
  }
}

/** Keys, addresses, account tags, transactions and the loader's error codes. */
module Types {
  import opened Bytes
  import opened Results

  /** A ledger account key. */
  type Pubkey = k: seq<Byte> | |k| == 32 witness Zeros(32)

  /** An Ethereum-style 20-byte address. */
  type Address = a: seq<Byte> | |a| == 20 witness Zeros(20)

  /** The role byte at the start of a program-owned account. */
  datatype Tag =
    | Empty
    | Holder
    | State
    | StateFinalized
    | HolderDeprecated
    | StateFinalizedDeprecated
    | Other(code: Byte)

  /** The decoded transaction fields the controller reads. */
  datatype Transaction = Transaction(hash: seq<Byte>, gasLimit: nat, gasPrice: nat, chainId: Option<nat>)

  datatype Error =
    | OutOfBounds
    /** A 256-bit word that does not fit the integer type it is converted to. */
    | IntegerConversion
    | Custom(message: string)
    | StaticModeViolation(contract: Address)
    | UnknownPrecompileMethodSelector(contract: Address, selector: seq<Byte>)
    | AccountInvalidTag(key: Pubkey, expected: Tag)
    | AccountBlocked(key: Pubkey)
    | AccountSpaceAllocationFailure
    | OutOfGas(gasLimit: nat, usedGas: nat)
    /** An error raised by a component outside this model and passed through unchanged. */
    | Foreign(code: nat)
}
