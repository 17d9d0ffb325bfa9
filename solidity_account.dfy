/**
 * The legacy Solidity account view: an account's unpacked header data, its lamports,
 * and a code buffer shared with the code account. The buffer holds a 32-byte header,
 * the contract code at [32, 32 + code_size), and the storage trie after the code.
 * The trie's byte layout is not modelled; its contents are a map from key to value.
 */
module LegacyAccount {
  import opened Bytes
  import opened Results
  import opened Types

  datatype ProgramError =
    | InvalidAccountData
    | AccountAlreadyInitialized
    | NotEnoughAccountKeys
    | AccountDataTooSmall
    | UninitializedAccount
    /** An error from unpacking the header, which is outside this model. */
    | Unpack(code: nat)

  /** The unpacked account header. `codeSize` is a u32 and `trxCount` a u64 in the account layout. */
  datatype AccountData = AccountData(
    ether: Address, nonce: Byte, trxCount: nat, signer: Pubkey, codeAccount: Pubkey, codeSize: nat)

  /** The balance and nonce reported to the EVM. */
  datatype Basic = Basic(balance: nat, nonce: nat)

  const ZERO_KEY: Pubkey := Zeros(32)

  /** Storage read as a map whose missing keys hold zero. */
  function Lookup(storage: map<nat, nat>, key: nat): nat
  {
    if key in storage then storage[key] else 0
  }

  /** The storage after inserting `items` in order, later items overriding earlier ones. */
  function Inserted(storage: map<nat, nat>, items: seq<(nat, nat)>): map<nat, nat>
  {
    if items == [] then storage
    else Inserted(storage, items[..|items| - 1])[items[|items| - 1].0 := items[|items| - 1].1]
  }

  /** Inserting items that never mention `key` leaves what `key` reads as it was. */
  lemma {:induction false} InsertedUntouched(storage: map<nat, nat>, items: seq<(nat, nat)>, key: nat)
    requires forall j :: 0 <= j < |items| ==> items[j].0 != key
    ensures key in Inserted(storage, items) <==> key in storage
    ensures Lookup(Inserted(storage, items), key) == Lookup(storage, key)
  {
    if items != [] {
      InsertedUntouched(storage, items[..|items| - 1], key);
    }
  }

  /** A key reads the value of the last item that mentions it. */
  lemma {:induction false} InsertedLastWins(storage: map<nat, nat>, items: seq<(nat, nat)>, j: nat)
    requires j < |items|
    requires forall later :: j < later < |items| ==> items[later].0 != items[j].0
    ensures items[j].0 in Inserted(storage, items)
    ensures Inserted(storage, items)[items[j].0] == items[j].1
  {
    if j < |items| - 1 {
      var init := items[..|items| - 1];
      assert init[j] == items[j];
      InsertedLastWins(storage, init, j);
    }
  }

  // ---------------------------------------------------------------------------
  // The checks `new` makes of the code buffer

  /** What `new` requires of the code buffer, as written: at least `code_size` bytes. */
  function NewCheckAsWritten(data: AccountData, bufferLength: Option<nat>): (r: Outcome<ProgramError>)
    ensures r.Pass? <==>
      data.codeSize == 0
      || (bufferLength.Some? && data.codeSize <= bufferLength.value && data.codeAccount != ZERO_KEY)
    ensures r.Fail? ==> r.error == InvalidAccountData
  {
    if data.codeSize > 0 then
      if bufferLength.None? then Fail(InvalidAccountData)
      else if bufferLength.value < data.codeSize then Fail(InvalidAccountData)
      else if data.codeAccount == ZERO_KEY then Fail(InvalidAccountData)
      else Pass
    else Pass
  }

  /** The as-written check admits a buffer too short for the code window `[32, 32 + code_size)`. */
  lemma NewCheckAsWrittenAdmitsShortBuffer()
    ensures var data := AccountData(Zeros(20), 0, 0, Zeros(32), [1] + Zeros(31), 1);
      NewCheckAsWritten(data, Some(1)) == Pass && 32 + data.codeSize > 1
  {
    var key: Pubkey := [1] + Zeros(31);
    assert key[0] != ZERO_KEY[0];
  }

  /** What `new` requires of the code buffer, with the bound the code window needs. */
  function NewCheck(data: AccountData, bufferLength: Option<nat>): (r: Outcome<ProgramError>)
    ensures r.Pass? <==>
      data.codeSize == 0
      || (bufferLength.Some? && 32 + data.codeSize <= bufferLength.value && data.codeAccount != ZERO_KEY)
    ensures r.Fail? ==> r.error == InvalidAccountData
    ensures data.codeSize == 0 ==> r == Pass
  {
    if data.codeSize > 0 then
      if bufferLength.None? then Fail(InvalidAccountData)
      else if bufferLength.value < 32 + data.codeSize then Fail(InvalidAccountData)
      else if data.codeAccount == ZERO_KEY then Fail(InvalidAccountData)
      else Pass
    else Pass
  }

  /** Every buffer the corrected check admits is also admitted by the as-written one. */
  lemma NewCheckStricter(data: AccountData, bufferLength: Option<nat>)
    ensures NewCheck(data, bufferLength).Pass? ==> NewCheckAsWritten(data, bufferLength).Pass?
    ensures NewCheckAsWritten(data, bufferLength).Fail? ==> NewCheck(data, bufferLength) == NewCheckAsWritten(data, bufferLength)
  {
  }

  // ---------------------------------------------------------------------------

  /** The shared code buffer: a fixed-size byte slice and the storage trie held in it. */
  class CodeBuffer {
    const bytes: array<Byte>
    var storage: map<nat, nat>
    /** Where the storage trie was last opened: the first byte after the code. */
    ghost var storageStart: nat

    constructor (bytes: array<Byte>, storage: map<nat, nat>)
      ensures this.bytes == bytes && this.storage == storage
    {
      this.bytes := bytes;
      this.storage := storage;
    }
  }

  function BufferLength(codeData: Option<CodeBuffer>): Option<nat>
  {
    if codeData.Some? then Some(codeData.value.bytes.Length) else None
  }

  /** The first storage insertion that fails, counted from zero, and its error. */
  datatype InsertFailure = InsertFailure(index: nat, error: ProgramError)

  /**
   * The outcomes of the layout and trie code `Update` calls, which is outside this model:
   * packing the header into the account's data, opening the trie after the code, and
   * the insertions into it.
   */
  datatype WriteOutcomes = WriteOutcomes(
    pack: Outcome<ProgramError>, open: Outcome<ProgramError>, insert: Option<InsertFailure>)

  /** Whether one of the insertions of `items` fails. */
  predicate InsertFails(items: seq<(nat, nat)>, insert: Option<InsertFailure>)
  {
    insert.Some? && insert.value.index < |items|
  }

  class SolidityAccount {
    var accountData: AccountData
    const solanaAddress: Pubkey
    const codeData: Option<CodeBuffer>
    const lamports: nat

    ghost function Repr(): set<object>
      reads this
    {
      {this} + if codeData.Some? then {codeData.value, codeData.value.bytes} else {}
    }

    /** The header fits its integer fields and a non-empty code window lies inside the buffer. */
    ghost predicate Valid()
      reads this
    {
      accountData.codeSize < U32_LIMIT && accountData.trxCount < U64_LIMIT
      && (accountData.codeSize > 0 ==>
            codeData.Some? && 32 + accountData.codeSize <= codeData.value.bytes.Length)
    }

    constructor (accountData: AccountData, solanaAddress: Pubkey, codeData: Option<CodeBuffer>, lamports: nat)
      requires accountData.codeSize < U32_LIMIT && accountData.trxCount < U64_LIMIT
      requires NewCheck(accountData, BufferLength(codeData)).Pass?
      ensures Valid()
      ensures this.accountData == accountData && this.solanaAddress == solanaAddress
      ensures this.codeData == codeData && this.lamports == lamports
    {
      this.accountData := accountData;
      this.solanaAddress := solanaAddress;
      this.codeData := codeData;
      this.lamports := lamports;
    }

    /** Builds the view from an unpacked header, refusing a header whose code is not available. */
    static method New(
      solanaAddress: Pubkey, unpacked: Result<AccountData, ProgramError>, lamports: nat,
      codeData: Option<CodeBuffer>)
      returns (r: Result<SolidityAccount, ProgramError>)
      requires unpacked.Success? ==>
        unpacked.value.codeSize < U32_LIMIT && unpacked.value.trxCount < U64_LIMIT
      ensures unpacked.Failure? ==> r == Failure(unpacked.error)
      ensures unpacked.Success? ==>
        (r.Success? <==> NewCheck(unpacked.value, BufferLength(codeData)).Pass?)
      ensures unpacked.Success? && r.Failure? ==> r.error == InvalidAccountData
      ensures r.Success? ==>
        fresh(r.value) && r.value.Valid() && r.value.accountData == unpacked.value
        && r.value.codeData == codeData && r.value.lamports == lamports
        && r.value.solanaAddress == solanaAddress
    {
      var data :- unpacked;
      if NewCheck(data, BufferLength(codeData)).Fail? {
        return Failure(InvalidAccountData);
      }
      var account := new SolidityAccount(data, solanaAddress, codeData, lamports);
      r := Success(account);
    }

    predicate CodeAvailable()
      reads this
    {
      accountData.codeSize > 0 && codeData.Some?
    }

    /** The code window of the shared buffer, or nothing when the account has no code. */
    function GetCode(): (code: seq<Byte>)
      requires Valid()
      reads this, Repr()
      ensures CodeAvailable() ==>
        code == codeData.value.bytes[32..32 + accountData.codeSize]
      ensures !CodeAvailable() ==> code == []
    {
      if CodeAvailable() then codeData.value.bytes[32..32 + accountData.codeSize] else []
    }

    /** The length of the code window: the stored code size when the code is available, else zero. */
    function CodeSize(): (n: nat)
      requires Valid()
      reads this, Repr()
      ensures n == |GetCode()|
      ensures n == if codeData.Some? then accountData.codeSize else 0
    {
      if CodeAvailable() then accountData.codeSize else 0
    }

    /**
     * The storage trie, or `UninitializedAccount` when the account has no code; `open` is
     * the outcome of opening the trie stored after the code.
     */
    function Storage(open: Outcome<ProgramError>): (r: Result<map<nat, nat>, ProgramError>)
      reads this, if codeData.Some? then {codeData.value} else {}
      ensures !CodeAvailable() ==> r == Failure(UninitializedAccount)
      ensures CodeAvailable() && open.Fail? ==> r == Failure(open.error)
      ensures r.Success? <==> CodeAvailable() && open.Pass?
      ensures r.Success? ==> r.value == codeData.value.storage
    {
      if CodeAvailable() then
        if open.Fail? then Failure(open.error) else Success(codeData.value.storage)
      else Failure(UninitializedAccount)
    }

    /** The value stored under `index`: zero when storage is unavailable or the key is absent. */
    function GetStorage(index: nat, open: Outcome<ProgramError>): (value: nat)
      reads this, if codeData.Some? then {codeData.value} else {}
      ensures Storage(open).Failure? ==> value == 0
      ensures Storage(open).Success? && index !in Storage(open).value ==> value == 0
      ensures Storage(open).Success? && index in Storage(open).value ==> value == Storage(open).value[index]
    {
      match Storage(open)
      case Failure(_) => 0
      case Success(storage) => Lookup(storage, index)
    }

    function GetBasic(): (b: Basic)
      reads this
      ensures b.balance == lamports && b.nonce == accountData.trxCount
    {
      Basic(lamports, accountData.trxCount)
    }

    /**
     * Writes the account back: lamports and nonce first, then the code (only into an
     * account without code), the header, and finally the storage items.
     */
    method Update(
      info: AccountInfo, nonce: nat, newLamports: nat, code: Option<seq<Byte>>,
      storageItems: seq<(nat, nat)>, resetStorage: bool, outcomes: WriteOutcomes)
      returns (r: Outcome<ProgramError>)
      requires Valid()
      // U256::as_u64 panics on a nonce of 2^64 or more
      requires nonce < U64_LIMIT
      // copying the code panics unless the buffer holds [32, 32 + |code|)
      requires code.Some? && accountData.codeSize == 0 && codeData.Some? && |code.value| < U32_LIMIT ==>
        32 + |code.value| <= codeData.value.bytes.Length
      modifies Repr(), info
      ensures Valid()
      // the lamports cell and the nonce are written before anything can fail
      ensures info.lamports == newLamports && accountData.trxCount == nonce
      ensures accountData == old(accountData).(trxCount := nonce, codeSize := accountData.codeSize)
      // code is written only into an account that has none
      ensures code.Some? && old(accountData.codeSize) != 0 ==> r == Fail(AccountAlreadyInitialized)
      ensures code.Some? && old(accountData.codeSize) == 0 && codeData.None? ==> r == Fail(NotEnoughAccountKeys)
      ensures code.Some? && old(accountData.codeSize) == 0 && codeData.Some? && |code.value| >= U32_LIMIT ==>
        r == Fail(AccountDataTooSmall)
      // a refused code step writes nothing more
      ensures !CodeStepPasses(code, old(accountData.codeSize), codeData.Some?) ==>
        info.data == old(info.data) && accountData.codeSize == old(accountData.codeSize)
        && (codeData.Some? ==>
              codeData.value.bytes[..] == old(codeData.value.bytes[..])
              && codeData.value.storage == old(codeData.value.storage))
      ensures code.Some? && old(accountData.codeSize) == 0 && codeData.Some? && |code.value| < U32_LIMIT ==>
        accountData.codeSize == |code.value|
        && codeData.value.bytes[32..32 + |code.value|] == code.value
        && (forall i :: 0 <= i < codeData.value.bytes.Length && !(32 <= i < 32 + |code.value|) ==>
              codeData.value.bytes[i] == old(codeData.value.bytes[i]))
      ensures code.None? ==>
        accountData.codeSize == old(accountData.codeSize)
        && (codeData.Some? ==> codeData.value.bytes[..] == old(codeData.value.bytes[..]))
      // once the code step passed, the header is packed; a failed pack ends the write
      ensures CodeStepPasses(code, old(accountData.codeSize), codeData.Some?) && outcomes.pack.Fail? ==>
        r == outcomes.pack && info.data == old(info.data)
        && (codeData.Some? ==> codeData.value.storage == old(codeData.value.storage))
      ensures CodeStepPasses(code, old(accountData.codeSize), codeData.Some?) && outcomes.pack.Pass? ==>
        info.data == accountData
      // the storage step runs only on a reset or when there are items
      ensures CodeStepPasses(code, old(accountData.codeSize), codeData.Some?) && outcomes.pack.Pass?
              && !resetStorage && storageItems == [] ==>
        r == Pass && (codeData.Some? ==> codeData.value.storage == old(codeData.value.storage))
      ensures CodeStepPasses(code, old(accountData.codeSize), codeData.Some?) && outcomes.pack.Pass?
              && (resetStorage || storageItems != []) && accountData.codeSize == 0 ==>
        r == Fail(UninitializedAccount) && (codeData.Some? ==> codeData.value.storage == old(codeData.value.storage))
      ensures CodeStepPasses(code, old(accountData.codeSize), codeData.Some?) && outcomes.pack.Pass?
              && (resetStorage || storageItems != []) && accountData.codeSize != 0 ==>
        codeData.value.storageStart == 32 + accountData.codeSize
        && GetCode() == codeData.value.bytes[32..codeData.value.storageStart]
      ensures CodeStepPasses(code, old(accountData.codeSize), codeData.Some?) && outcomes.pack.Pass?
              && (resetStorage || storageItems != []) && accountData.codeSize != 0 && outcomes.open.Fail? ==>
        r == outcomes.open && codeData.value.storage == old(codeData.value.storage)
      // the items are inserted in order; a failed insertion keeps the ones before it
      ensures CodeStepPasses(code, old(accountData.codeSize), codeData.Some?) && outcomes.pack.Pass?
              && (resetStorage || storageItems != []) && accountData.codeSize != 0 && outcomes.open.Pass? ==>
        var start := if resetStorage then map[] else old(codeData.value.storage);
        if InsertFails(storageItems, outcomes.insert) then
          r == Fail(outcomes.insert.value.error)
          && codeData.value.storage == Inserted(start, storageItems[..outcomes.insert.value.index])
        else
          r == Pass && codeData.value.storage == Inserted(start, storageItems)
    {
      info.lamports := newLamports;
      accountData := accountData.(trxCount := nonce);
      if code.Some? {
        r := WriteCode(code.value);
        if r.Fail? {
          return;
        }
      }

      if outcomes.pack.Fail? {
        return outcomes.pack;
      }
      info.data := accountData;

      if resetStorage || storageItems != [] {
        r := WriteStorage(storageItems, resetStorage, outcomes);
        return;
      }
      r := Pass;
    }

    /** The code step of `Update`: the code is copied only into an account that has none. */
    method WriteCode(code: seq<Byte>) returns (r: Outcome<ProgramError>)
      requires Valid()
      requires accountData.codeSize == 0 && codeData.Some? && |code| < U32_LIMIT ==>
        32 + |code| <= codeData.value.bytes.Length
      modifies this, if codeData.Some? then {codeData.value.bytes} else {}
      ensures Valid()
      ensures accountData == old(accountData).(codeSize := accountData.codeSize)
      ensures r.Pass? <==> CodeStepPasses(Some(code), old(accountData.codeSize), codeData.Some?)
      ensures old(accountData.codeSize) != 0 ==> r == Fail(AccountAlreadyInitialized)
      ensures old(accountData.codeSize) == 0 && codeData.None? ==> r == Fail(NotEnoughAccountKeys)
      ensures old(accountData.codeSize) == 0 && codeData.Some? && |code| >= U32_LIMIT ==>
        r == Fail(AccountDataTooSmall)
      ensures r.Fail? ==>
        accountData.codeSize == old(accountData.codeSize)
        && (codeData.Some? ==> codeData.value.bytes[..] == old(codeData.value.bytes[..]))
      ensures r.Pass? ==>
        accountData.codeSize == |code|
        && codeData.value.bytes[32..32 + |code|] == code
        && (forall i :: 0 <= i < codeData.value.bytes.Length && !(32 <= i < 32 + |code|) ==>
              codeData.value.bytes[i] == old(codeData.value.bytes[i]))
    {
      if accountData.codeSize != 0 {
        return Fail(AccountAlreadyInitialized);
      }
      if codeData.None? {
        return Fail(NotEnoughAccountKeys);
      }
      if |code| >= U32_LIMIT {
        return Fail(AccountDataTooSmall);
      }
      accountData := accountData.(codeSize := |code|);
      var bytes := codeData.value.bytes;
      forall i | 32 <= i < 32 + |code| {
        bytes[i] := code[i - 32];
      }
      r := Pass;
    }

    /**
     * The storage step of `Update`: the trie after the code is opened (and cleared on a
     * reset) and the items are inserted in order.
     */
    method WriteStorage(storageItems: seq<(nat, nat)>, resetStorage: bool, outcomes: WriteOutcomes)
      returns (r: Outcome<ProgramError>)
      requires Valid()
      modifies if codeData.Some? then {codeData.value} else {}
      ensures accountData.codeSize == 0 ==>
        r == Fail(UninitializedAccount) && (codeData.Some? ==> codeData.value.storage == old(codeData.value.storage))
      ensures accountData.codeSize != 0 ==>
        codeData.value.storageStart == 32 + accountData.codeSize
        && codeData.value.storageStart <= codeData.value.bytes.Length
      ensures accountData.codeSize != 0 && outcomes.open.Fail? ==>
        r == outcomes.open && codeData.value.storage == old(codeData.value.storage)
      // a failed insertion keeps the ones before it: the trie is updated in place
      ensures accountData.codeSize != 0 && outcomes.open.Pass? ==>
        var start := if resetStorage then map[] else old(codeData.value.storage);
        if InsertFails(storageItems, outcomes.insert) then
          r == Fail(outcomes.insert.value.error)
          && codeData.value.storage == Inserted(start, storageItems[..outcomes.insert.value.index])
        else
          r == Pass && codeData.value.storage == Inserted(start, storageItems)
    {
      var codeSize := accountData.codeSize;
      if codeSize == 0 {
        return Fail(UninitializedAccount);
      }
      var buffer := codeData.value;
      buffer.storageStart := 32 + codeSize;
      if outcomes.open.Fail? {
        return outcomes.open;
      }
      var storage := if resetStorage then map[] else buffer.storage;
      var i := 0;
      while i < |storageItems|
        invariant 0 <= i <= |storageItems|
        invariant outcomes.insert.Some? ==> i <= outcomes.insert.value.index
        invariant storage == Inserted(if resetStorage then map[] else old(buffer.storage), storageItems[..i])
      {
        if outcomes.insert.Some? && outcomes.insert.value.index == i {
          buffer.storage := storage;
          return Fail(outcomes.insert.value.error);
        }
        assert storageItems[..i + 1][..i] == storageItems[..i];
        storage := storage[storageItems[i].0 := storageItems[i].1];
        i := i + 1;
      }
      assert storageItems[..i] == storageItems;
      buffer.storage := storage;
      r := Pass;
    }
  }

  /** Whether the code step of `Update` lets the write go on to the header and the storage. */
  predicate CodeStepPasses(code: Option<seq<Byte>>, oldCodeSize: nat, hasBuffer: bool)
  {
    code.None? || (oldCodeSize == 0 && hasBuffer && |code.value| < U32_LIMIT)
  }

  /** The ledger account whose lamports cell and data `Update` writes. */
  class AccountInfo {
    var lamports: nat
    /** The header as packed into the account's data. */
    var data: AccountData

    constructor (lamports: nat, data: AccountData)
      ensures this.lamports == lamports && this.data == data
    {
      this.lamports := lamports;
      this.data := data;
    }
  }
}
