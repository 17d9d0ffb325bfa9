/**
 * The token-metadata precompile: the Solidity ABI readers and writers it uses,
 * the guards and selector dispatch of its entry point, and the read-only queries.
 * The instruction-building handlers (createMetadata, createMasterEdition) and the
 * metadata account lookup are collaborators whose results are parameters here.
 */
module MetaplexPrecompile {
  import opened Bytes
  import opened Results
  import opened Types

  const VALUE_NOT_ALLOWED: string := "Metaplex: value != 0"
  const DELEGATECALL_NOT_ALLOWED: string := "Metaplex: callcode or delegatecall is not allowed"
  const INVALID_UTF8: string := "Invalid utf8 string"

  /** createMetadata(bytes32,string,string,string) */
  const CREATE_METADATA: seq<Byte> := [0xc5, 0x73, 0x50, 0xc6]
  /** createMasterEdition(bytes32,uint64) */
  const CREATE_MASTER_EDITION: seq<Byte> := [0x4a, 0xe8, 0xb6, 0x6b]
  /** isInitialized(bytes32) */
  const IS_INITIALIZED: seq<Byte> := [0xf7, 0xb6, 0x37, 0xbb]
  /** isNFT(bytes32) */
  const IS_NFT: seq<Byte> := [0x23, 0x5b, 0x2b, 0x94]
  /** uri(bytes32) */
  const URI: seq<Byte> := [0x9e, 0xd1, 0x9d, 0xdb]
  /** name(bytes32) */
  const NAME: seq<Byte> := [0x69, 0x1f, 0x34, 0x31]
  /** symbol(bytes32) */
  const SYMBOL: seq<Byte> := [0x6b, 0xaa, 0x03, 0x30]

  /** The call frame the precompile is invoked in. */
  datatype Context = Context(caller: Address, contract: Address, value: nat)

  datatype TokenStandard =
    NonFungible | FungibleAsset | Fungible | NonFungibleEdition | ProgrammableNonFungible

  /** The fields of a token-metadata account that the queries read. */
  datatype Metadata = Metadata(
    name: seq<Byte>, symbol: seq<Byte>, uri: seq<Byte>, tokenStandard: Option<TokenStandard>)

  /** A decoded precompile call: the handler selected and its decoded arguments. */
  datatype Call =
    | CreateMetadata(mint: Pubkey, name: seq<Byte>, symbol: seq<Byte>, uri: seq<Byte>)
    | CreateMasterEdition(mint: Pubkey, maxSupply: nat)
    | IsInitialized(mint: Pubkey)
    | IsNft(mint: Pubkey)
    | Uri(mint: Pubkey)
    | TokenName(mint: Pubkey)
    | Symbol(mint: Pubkey)
  {
    /** The two calls that queue an instruction and so change state. */
    predicate Mutates() { CreateMetadata? || CreateMasterEdition? }

    function Selector(): seq<Byte>
    {
      match this
      case CreateMetadata(_, _, _, _) => CREATE_METADATA
      case CreateMasterEdition(_, _) => CREATE_MASTER_EDITION
      case IsInitialized(_) => IS_INITIALIZED
      case IsNft(_) => IS_NFT
      case Uri(_) => URI
      case TokenName(_) => NAME
      case Symbol(_) => SYMBOL
    }
  }

  predicate IsCreateSelector(selector: seq<Byte>)
  {
    selector == CREATE_METADATA || selector == CREATE_MASTER_EDITION
  }

  predicate IsQuerySelector(selector: seq<Byte>)
  {
    selector == IS_INITIALIZED || selector == IS_NFT || selector == URI
    || selector == NAME || selector == SYMBOL
  }

  // ---------------------------------------------------------------------------
  // UTF-8 well-formedness, as RFC 3629 section 4 defines it

  predicate IsContinuation(b: Byte) { 0x80 <= b <= 0xBF }

  /** The length of the character a lead byte starts, or 0 if it cannot start one. */
  function CharWidth(lead: Byte): nat
  {
    if lead <= 0x7F then 1
    else if 0xC2 <= lead <= 0xDF then 2
    else if 0xE0 <= lead <= 0xEF then 3
    else if 0xF0 <= lead <= 0xF4 then 4
    else 0
  }

  predicate ValidChar(c: seq<Byte>)
  {
    |c| >= 1 && |c| == CharWidth(c[0])
    && (forall i :: 1 <= i < |c| ==> IsContinuation(c[i]))
    && (c[0] == 0xE0 ==> c[1] >= 0xA0)
    && (c[0] == 0xED ==> c[1] <= 0x9F)
    && (c[0] == 0xF0 ==> c[1] >= 0x90)
    && (c[0] == 0xF4 ==> c[1] <= 0x8F)
  }

  predicate ValidUtf8(s: seq<Byte>)
    decreases |s|
  {
    s == [] || (var w := CharWidth(s[0]); 0 < w <= |s| && ValidChar(s[..w]) && ValidUtf8(s[w..]))
  }

  /** A NUL byte is only ever a whole character, so dropping a trailing one keeps the text well formed. */
  lemma {:induction false} DropTrailingNul(s: seq<Byte>)
    requires ValidUtf8(s) && |s| > 0 && s[|s| - 1] == 0
    ensures ValidUtf8(s[..|s| - 1])
    decreases |s|
  {
    var w := CharWidth(s[0]);
    if w == |s| {
      assert w == 1;
      assert s[..|s| - 1] == [];
    } else {
      var rest := s[w..];
      assert rest[|rest| - 1] == s[|s| - 1];
      DropTrailingNul(rest);
      var t := s[..|s| - 1];
      assert t[..w] == s[..w];
      assert t[w..] == rest[..|rest| - 1] by {
        assert |t[w..]| == |rest| - 1;
        forall i | 0 <= i < |rest| - 1 ensures t[w..][i] == rest[..|rest| - 1][i] {
          assert t[w..][i] == s[w + i];
        }
      }
    }
  }

  // ---------------------------------------------------------------------------
  // Trailing NUL trimming (`str::trim_end_matches('\0')`)

  /** `s` without its trailing NUL bytes. */
  function TrimEndNul(s: seq<Byte>): (r: seq<Byte>)
    ensures r <= s
    ensures r == [] || r[|r| - 1] != 0
    ensures forall i :: |r| <= i < |s| ==> s[i] == 0
  {
    if |s| > 0 && s[|s| - 1] == 0 then TrimEndNul(s[..|s| - 1]) else s
  }

  lemma {:induction false} TrimEndNulValid(s: seq<Byte>)
    requires ValidUtf8(s)
    ensures ValidUtf8(TrimEndNul(s))
    decreases |s|
  {
    if |s| > 0 && s[|s| - 1] == 0 {
      DropTrailingNul(s);
      TrimEndNulValid(s[..|s| - 1]);
    }
  }

  /** Trimming twice trims nothing more. */
  lemma {:induction false} TrimEndNulIdempotent(s: seq<Byte>)
    ensures TrimEndNul(TrimEndNul(s)) == TrimEndNul(s)
  {
    var r := TrimEndNul(s);
    assert !(|r| > 0 && r[|r| - 1] == 0);
  }

  // ---------------------------------------------------------------------------
  // ABI readers

  /** The 32-byte big-endian word of `input` at `at`. */
  function WordAt(input: seq<Byte>, at: nat): nat
    requires at + 32 <= |input|
  {
    BigEndian(input[at..at + 32])
  }

  function SaturatingAdd(a: nat, b: nat): (r: nat)
    ensures r == if a + b <= USIZE_MAX then a + b else USIZE_MAX
  {
    if a + b > USIZE_MAX then USIZE_MAX else a + b
  }

  /** A `uint64` argument: the first word, which must be below 2^64. */
  function ReadU64(input: seq<Byte>): (r: Result<nat, Error>)
    ensures |input| < 32 ==> r == Failure(OutOfBounds)
    ensures |input| >= 32 && WordAt(input, 0) >= U64_LIMIT ==> r == Failure(IntegerConversion)
    ensures r.Success? <==> |input| >= 32 && WordAt(input, 0) < U64_LIMIT
    ensures r.Success? ==> r.value == WordAt(input, 0) && r.value < U64_LIMIT
  {
    if |input| < 32 then Failure(OutOfBounds)
    else
      var word := BigEndian(input[0..32]);
      if word < U64_LIMIT then Success(word) else Failure(IntegerConversion)
  }

  /** A `bytes32` argument taken as an account key: exactly the first 32 bytes. */
  function ReadPubkey(input: seq<Byte>): (r: Result<Pubkey, Error>)
    ensures |input| < 32 <==> r == Failure(OutOfBounds)
    ensures r.Success? <==> |input| >= 32
    ensures r.Success? ==> r.value == input[..32]
  {
    if |input| < 32 then Failure(OutOfBounds)
    else
      var key: Pubkey := input[0..32];
      Success(key)
  }

  /** A `uint64` written as a big-endian word is read back, whatever follows it. */
  lemma ReadU64OfEncoded(n: nat, rest: seq<Byte>)
    requires n < U64_LIMIT
    ensures ReadU64(ToBigEndian(n, 32) + rest) == Success(n)
  {
    var input := ToBigEndian(n, 32) + rest;
    assert input[0..32] == ToBigEndian(n, 32);
    Pow256Values();
    Pow256Monotone(8, 32);
    BigEndianOfToBigEndian(n, 32);
  }

  /** A key placed at the head of the arguments is read back, whatever follows it. */
  lemma ReadPubkeyOfKey(key: Pubkey, rest: seq<Byte>)
    ensures ReadPubkey(key + rest) == Success(key)
  {
    assert (key + rest)[..32] == key;
  }

  /**
   * A dynamic `string` argument whose head word sits at `offsetPosition`: the head
   * holds the offset of a length word, which is followed by the text itself.
   */
  function ReadString(input: seq<Byte>, offsetPosition: nat, maxLength: nat): (r: Result<seq<Byte>, Error>)
    requires |input| <= ISIZE_MAX && offsetPosition + 32 <= USIZE_MAX && maxLength <= USIZE_MAX
    // the head word is missing
    ensures |input| < offsetPosition + 32 ==> r == Failure(OutOfBounds)
    // the length word is missing: the offset is out of range or does not even fit a usize
    ensures offsetPosition + 32 <= |input| && |input| < WordAt(input, offsetPosition) + 32 ==>
      r == Failure(if WordAt(input, offsetPosition) > USIZE_MAX then IntegerConversion else OutOfBounds)
    // the declared length is too large
    ensures (offsetPosition + 32 <= |input| && WordAt(input, offsetPosition) + 32 <= |input|
             && WordAt(input, WordAt(input, offsetPosition)) > maxLength) ==>
      r == Failure(if WordAt(input, WordAt(input, offsetPosition)) > USIZE_MAX then IntegerConversion else OutOfBounds)
    // the text runs past the end of the input
    ensures (offsetPosition + 32 <= |input| && WordAt(input, offsetPosition) + 32 <= |input|
             && WordAt(input, WordAt(input, offsetPosition)) <= maxLength
             && |input| < WordAt(input, offsetPosition) + 32 + WordAt(input, WordAt(input, offsetPosition))) ==>
      r == Failure(OutOfBounds)
    // on success, the text is exactly the bytes after the length word
    ensures r.Success? ==>
      offsetPosition + 32 <= |input| &&
      var offset := WordAt(input, offsetPosition);
      offset + 32 <= |input| &&
      var length := WordAt(input, offset);
      length <= maxLength && offset + 32 + length <= |input|
      && r.value == input[offset + 32 .. offset + 32 + length]
      && |r.value| <= maxLength && ValidUtf8(r.value)
    // in bounds, the only remaining failure is malformed text
    ensures (offsetPosition + 32 <= |input| && WordAt(input, offsetPosition) + 32 <= |input|
             && WordAt(input, WordAt(input, offsetPosition)) <= maxLength
             && WordAt(input, offsetPosition) + 32 + WordAt(input, WordAt(input, offsetPosition)) <= |input|) ==>
      (r.Success? <==> ValidUtf8(input[WordAt(input, offsetPosition) + 32
                                       .. WordAt(input, offsetPosition) + 32 + WordAt(input, WordAt(input, offsetPosition))]))
      && (r.Failure? ==> r.error == Custom(INVALID_UTF8))
  {
    if |input| < offsetPosition + 32 then Failure(OutOfBounds)
    else
      var offset := BigEndian(input[offsetPosition..offsetPosition + 32]);
      if offset > USIZE_MAX then Failure(IntegerConversion)
      else if |input| < SaturatingAdd(offset, 32) then Failure(OutOfBounds)
      else
        var length := BigEndian(input[offset..offset + 32]);
        if length > USIZE_MAX then Failure(IntegerConversion)
        else if length > maxLength then Failure(OutOfBounds)
        else
          var begin := SaturatingAdd(offset, 32);
          var end := SaturatingAdd(begin, length);
          if |input| < end then Failure(OutOfBounds)
          else if !ValidUtf8(input[begin..end]) then Failure(Custom(INVALID_UTF8))
          else Success(input[begin..end])
  }

  // ---------------------------------------------------------------------------
  // ABI writers

  /** A `bool` return value: one word holding 0 or 1. */
  function EncodedBool(v: bool): (r: seq<Byte>)
    ensures |r| == 32 && r[31] == (if v then 1 else 0)
    ensures forall i :: 0 <= i < 31 ==> r[i] == 0
    ensures BigEndian(r) == if v then 1 else 0
  {
    ToBigEndianSmall(if v then 1 else 0, 32);
    BigEndianOfToBigEndian(if v then 1 else 0, 32);
    ToBigEndian(if v then 1 else 0, 32)
  }

  /** The number of data bytes the string encoder reserves for `n` bytes of text. */
  function PaddedLength(n: nat): (r: nat)
    ensures n <= r
  {
    if n % 32 == 0 then (if n < 32 then 32 else n) else (n / 32 + 1) * 32
  }

  /** The least multiple of 32 that is at least `n`. */
  function RoundUp32(n: nat): (r: nat)
    ensures r % 32 == 0 && n <= r < n + 32
  {
    (n + 31) / 32 * 32
  }

  lemma PaddedLengthIsRoundedUp(n: nat)
    ensures PaddedLength(n) == if RoundUp32(n) < 32 then 32 else RoundUp32(n)
  {
  }

  /** A `string` return value: the offset word 0x20, the length word, then the text padded with zeros. */
  function EncodedString(s: seq<Byte>): seq<Byte>
  {
    ToBigEndian(32, 32) + ToBigEndian(|s|, 32) + s + Zeros(PaddedLength(|s|) - |s|)
  }

  lemma EncodedStringLayout(s: seq<Byte>)
    ensures var e := EncodedString(s);
      |e| == 64 + PaddedLength(|s|) && |e| % 32 == 0 && |e| >= 96
      && (forall i :: 0 <= i < 31 ==> e[i] == 0) && e[31] == 0x20
      && e[32..64] == ToBigEndian(|s|, 32)
      && e[64..64 + |s|] == s
      && (forall i :: 64 + |s| <= i < |e| ==> e[i] == 0)
  {
    ToBigEndianSmall(32, 32);
    PaddedLengthIsRoundedUp(|s|);
    var e := EncodedString(s);
    assert e[32..64] == ToBigEndian(|s|, 32);
    assert e[64..64 + |s|] == s;
  }

  /** Any input whose head points at 32 and whose length word and text follow is read back as that text. */
  lemma ReadStringAtHead(e: seq<Byte>, s: seq<Byte>, maxLength: nat)
    requires 64 + |s| <= |e| <= ISIZE_MAX && |s| <= maxLength <= USIZE_MAX
    requires WordAt(e, 0) == 32 && WordAt(e, 32) == |s| && e[64..64 + |s|] == s && ValidUtf8(s)
    ensures ReadString(e, 0, maxLength) == Success(s)
  {
  }

  /** The writer's two head words read back as the offset 32 and the text's length. */
  lemma EncodedStringWords(s: seq<Byte>)
    requires 64 + PaddedLength(|s|) <= ISIZE_MAX
    ensures |EncodedString(s)| >= 64
    ensures WordAt(EncodedString(s), 0) == 32 && WordAt(EncodedString(s), 32) == |s|
  {
    var e := EncodedString(s);
    EncodedStringLayout(s);
    assert e[0..32] == ToBigEndian(32, 32) by {
      ToBigEndianSmall(32, 32);
      assert forall i :: 0 <= i < 32 ==> e[0..32][i] == ToBigEndian(32, 32)[i];
    }
    BigEndianOfToBigEndian(32, 32);
    Pow256Values();
    Pow256Monotone(8, 32);
    BigEndianOfToBigEndian(|s|, 32);
  }

  /** The reader recovers any well-formed text from the writer's encoding of it. */
  lemma ReadStringOfEncoded(s: seq<Byte>, maxLength: nat)
    requires ValidUtf8(s) && |s| <= maxLength <= USIZE_MAX
    requires 64 + PaddedLength(|s|) <= ISIZE_MAX
    ensures ReadString(EncodedString(s), 0, maxLength) == Success(s)
  {
    EncodedStringLayout(s);
    EncodedStringWords(s);
    ReadStringAtHead(EncodedString(s), s, maxLength);
  }

  /** Writes the `bool` encoding into a zeroed buffer. */
  method ToSolidityBool(v: bool) returns (result: seq<Byte>)
    ensures result == EncodedBool(v)
  {
    var buffer := new Byte[32](_ => 0);
    buffer[31] := if v then 1 else 0;
    result := buffer[..];
    assert forall i :: 0 <= i < 32 ==> result[i] == EncodedBool(v)[i];
  }

  /** Writes the `string` encoding into a zeroed buffer of the padded size. */
  method ToSolidityString(s: seq<Byte>) returns (result: seq<Byte>)
    ensures result == EncodedString(s)
  {
    var dataLength := if |s| % 32 == 0 then (if |s| < 32 then 32 else |s|) else (|s| / 32 + 1) * 32;
    var buffer := new Byte[64 + dataLength](_ => 0);
    buffer[31] := 0x20;
    var length := ToBigEndian(|s|, 32);
    forall i | 32 <= i < 64 {
      buffer[i] := length[i - 32];
    }
    forall i | 64 <= i < 64 + |s| {
      buffer[i] := s[i - 64];
    }
    result := buffer[..];
    EncodedStringLayout(s);
    var e := EncodedString(s);
    assert forall i :: 32 <= i < 64 ==> e[i] == e[32..64][i - 32];
    assert forall i :: 64 <= i < 64 + |s| ==> e[i] == e[64..64 + |s|][i - 64];
    assert forall i :: 0 <= i < |e| ==> result[i] == e[i];
  }

  // ---------------------------------------------------------------------------
  // Entry point: guards and selector dispatch

  /**
   * Checks the call frame, splits off the selector and decodes the arguments of the
   * selected handler; the handler itself is not run.
   */
  function ParseCall(address: Address, input: seq<Byte>, context: Context, isStatic: bool): (r: Result<Call, Error>)
    requires 4 <= |input| <= ISIZE_MAX
    ensures context.value != 0 ==> r == Failure(Custom(VALUE_NOT_ALLOWED))
    ensures context.value == 0 && context.contract != address ==> r == Failure(Custom(DELEGATECALL_NOT_ALLOWED))
    ensures context.value == 0 && context.contract == address && IsCreateSelector(input[..4]) && isStatic ==>
      r == Failure(StaticModeViolation(address))
    ensures (context.value == 0 && context.contract == address
             && !IsCreateSelector(input[..4]) && !IsQuerySelector(input[..4])) ==>
      r == Failure(UnknownPrecompileMethodSelector(address, input[..4]))
    ensures context.value == 0 && context.contract == address && IsQuerySelector(input[..4]) ==>
      (r.Success? <==> |input| >= 36) && (r.Failure? ==> r.error == OutOfBounds)
    // a non-static `createMetadata` decodes the mint, then name, symbol and uri, stopping at the first reader that fails
    ensures context.value == 0 && context.contract == address && input[..4] == CREATE_METADATA && !isStatic ==>
      var args := input[4..];
      (|args| < 32 ==> r == Failure(OutOfBounds))
      && (|args| >= 32 && ReadString(args, 32, 256).Failure? ==> r == Failure(ReadString(args, 32, 256).error))
      && (|args| >= 32 && ReadString(args, 32, 256).Success? && ReadString(args, 64, 256).Failure? ==>
            r == Failure(ReadString(args, 64, 256).error))
      && (|args| >= 32 && ReadString(args, 32, 256).Success? && ReadString(args, 64, 256).Success?
          && ReadString(args, 96, 1024).Failure? ==>
            r == Failure(ReadString(args, 96, 1024).error))
      && (|args| >= 32 && ReadString(args, 32, 256).Success? && ReadString(args, 64, 256).Success?
          && ReadString(args, 96, 1024).Success? ==>
            r == Success(CreateMetadata(args[..32], ReadString(args, 32, 256).value,
                                        ReadString(args, 64, 256).value, ReadString(args, 96, 1024).value)))
    // a non-static `createMasterEdition` decodes the mint, then the `uint64` word right after it
    ensures context.value == 0 && context.contract == address && input[..4] == CREATE_MASTER_EDITION && !isStatic ==>
      (|input| < 36 ==> r == Failure(OutOfBounds))
      && (|input| >= 36 && ReadU64(input[36..]).Failure? ==> r == Failure(ReadU64(input[36..]).error))
      && (|input| >= 36 && ReadU64(input[36..]).Success? ==>
            r == Success(CreateMasterEdition(input[4..36], ReadU64(input[36..]).value)))
    ensures r.Success? ==>
      context.value == 0 && context.contract == address && |input| >= 36
      && r.value.Selector() == input[..4] && r.value.mint == input[4..36]
      && (r.value.Mutates() ==> !isStatic)
    ensures r.Success? && r.value.CreateMasterEdition? ==>
      |input| >= 68 && r.value.maxSupply == WordAt(input, 36) < U64_LIMIT
    ensures r.Success? && r.value.CreateMetadata? ==>
      ReadString(input[4..], 32, 256) == Success(r.value.name)
      && ReadString(input[4..], 64, 256) == Success(r.value.symbol)
      && ReadString(input[4..], 96, 1024) == Success(r.value.uri)
  {
    if context.value != 0 then Failure(Custom(VALUE_NOT_ALLOWED))
    else if context.contract != address then Failure(Custom(DELEGATECALL_NOT_ALLOWED))
    else
      var selector := input[..4];
      var args := input[4..];
      if selector == CREATE_METADATA then
        if isStatic then Failure(StaticModeViolation(address))
        else
          var mint :- ReadPubkey(args);
          var name :- ReadString(args, 32, 256);
          var symbol :- ReadString(args, 64, 256);
          var uri :- ReadString(args, 96, 1024);
          Success(CreateMetadata(mint, name, symbol, uri))
      else if selector == CREATE_MASTER_EDITION then
        if isStatic then Failure(StaticModeViolation(address))
        else
          var mint :- ReadPubkey(args);
          assert args[32..] == input[36..] && args[..32] == input[4..36];
          var maxSupply :- ReadU64(args[32..]);
          assert args[32..][0..32] == input[36..68];
          Success(CreateMasterEdition(mint, maxSupply))
      else if selector == IS_INITIALIZED then
        var mint :- ReadPubkey(args);
        Success(IsInitialized(mint))
      else if selector == IS_NFT then
        var mint :- ReadPubkey(args);
        Success(IsNft(mint))
      else if selector == URI then
        var mint :- ReadPubkey(args);
        Success(Uri(mint))
      else if selector == NAME then
        var mint :- ReadPubkey(args);
        Success(TokenName(mint))
      else if selector == SYMBOL then
        var mint :- ReadPubkey(args);
        Success(Symbol(mint))
      else Failure(UnknownPrecompileMethodSelector(address, selector))
  }

  // ---------------------------------------------------------------------------
  // Read-only queries over the looked-up metadata account

  /** What a read-only query returns for the metadata found for its mint (`None` if there is none). */
  function Answer(call: Call, metadata: Option<Metadata>): seq<Byte>
    requires !call.Mutates()
  {
    match call
    case IsInitialized(_) => EncodedBool(metadata.Some?)
    case IsNft(_) => EncodedBool(metadata.Some? && metadata.value.tokenStandard == Some(NonFungible))
    case Uri(_) => EncodedString(TrimEndNul(if metadata.Some? then metadata.value.uri else []))
    case TokenName(_) => EncodedString(TrimEndNul(if metadata.Some? then metadata.value.name else []))
    case Symbol(_) => EncodedString(TrimEndNul(if metadata.Some? then metadata.value.symbol else []))
  }

  method IsInitializedOutput(metadata: Result<Option<Metadata>, Error>) returns (r: Result<seq<Byte>, Error>)
    ensures metadata.Failure? ==> r == Failure(metadata.error)
    ensures metadata.Success? ==> r == Success(EncodedBool(metadata.value.Some?))
  {
    var found :- metadata;
    var output := ToSolidityBool(found.Some?);
    r := Success(output);
  }

  method IsNftOutput(metadata: Result<Option<Metadata>, Error>) returns (r: Result<seq<Byte>, Error>)
    ensures metadata.Failure? ==> r == Failure(metadata.error)
    ensures metadata.Success? ==>
      r == Success(EncodedBool(metadata.value.Some? && metadata.value.value.tokenStandard == Some(NonFungible)))
  {
    var found :- metadata;
    var isNft := found.Some? && found.value.tokenStandard == Some(NonFungible);
    var output := ToSolidityBool(isNft);
    r := Success(output);
  }

  method UriOutput(metadata: Result<Option<Metadata>, Error>) returns (r: Result<seq<Byte>, Error>)
    ensures metadata.Failure? ==> r == Failure(metadata.error)
    ensures metadata.Success? ==>
      r == Success(EncodedString(TrimEndNul(if metadata.value.Some? then metadata.value.value.uri else [])))
  {
    var found :- metadata;
    var uri := if found.Some? then found.value.uri else [];
    var output := ToSolidityString(TrimEndNul(uri));
    r := Success(output);
  }

  method TokenNameOutput(metadata: Result<Option<Metadata>, Error>) returns (r: Result<seq<Byte>, Error>)
    ensures metadata.Failure? ==> r == Failure(metadata.error)
    ensures metadata.Success? ==>
      r == Success(EncodedString(TrimEndNul(if metadata.value.Some? then metadata.value.value.name else [])))
  {
    var found :- metadata;
    var name := if found.Some? then found.value.name else [];
    var output := ToSolidityString(TrimEndNul(name));
    r := Success(output);
  }

  method SymbolOutput(metadata: Result<Option<Metadata>, Error>) returns (r: Result<seq<Byte>, Error>)
    ensures metadata.Failure? ==> r == Failure(metadata.error)
    ensures metadata.Success? ==>
      r == Success(EncodedString(TrimEndNul(if metadata.value.Some? then metadata.value.value.symbol else [])))
  {
    var found :- metadata;
    var symbol := if found.Some? then found.value.symbol else [];
    var output := ToSolidityString(TrimEndNul(symbol));
    r := Success(output);
  }

  /**
   * The precompile entry point. `lookup` stands for reading and deserializing the
   * metadata account of a mint, `create` for the two instruction-building handlers.
   */
  method Metaplex(
    address: Address, input: seq<Byte>, context: Context, isStatic: bool,
    lookup: Pubkey -> Result<Option<Metadata>, Error>,
    create: Call -> Result<seq<Byte>, Error>)
    returns (r: Result<seq<Byte>, Error>)
    requires 4 <= |input| <= ISIZE_MAX
    ensures ParseCall(address, input, context, isStatic).Failure? ==>
      r == Failure(ParseCall(address, input, context, isStatic).error)
    ensures ParseCall(address, input, context, isStatic).Success? ==>
      var call := ParseCall(address, input, context, isStatic).value;
      r == if call.Mutates() then create(call)
           else if lookup(call.mint).Failure? then Failure(lookup(call.mint).error)
           else Success(Answer(call, lookup(call.mint).value))
  {
    var call :- ParseCall(address, input, context, isStatic);
    match call {
      case CreateMetadata(_, _, _, _) =>
        r := create(call);
      case CreateMasterEdition(_, _) =>
        r := create(call);
      case IsInitialized(mint) =>
        r := IsInitializedOutput(lookup(mint));
      case IsNft(mint) =>
        r := IsNftOutput(lookup(mint));
      case Uri(mint) =>
        r := UriOutput(lookup(mint));
      case TokenName(mint) =>
        r := TokenNameOutput(lookup(mint));
      case Symbol(mint) =>
        r := SymbolOutput(lookup(mint));
    }
  }

  /** A Solidity caller decoding the reply of `uri(bytes32)` gets the stored URI without its NUL padding. */
  lemma UriReplyDecodes(mint: Pubkey, metadata: Metadata, maxLength: nat)
    requires ValidUtf8(metadata.uri) && |metadata.uri| <= maxLength <= USIZE_MAX
    requires |Answer(Uri(mint), Some(metadata))| <= ISIZE_MAX
    ensures ReadString(Answer(Uri(mint), Some(metadata)), 0, maxLength) == Success(TrimEndNul(metadata.uri))
  {
    var trimmed := TrimEndNul(metadata.uri);
    assert Answer(Uri(mint), Some(metadata)) == EncodedString(trimmed);
    TrimEndNulValid(metadata.uri);
    EncodedStringLayout(trimmed);
    ReadStringOfEncoded(trimmed, maxLength);
  }
}
