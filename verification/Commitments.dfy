/** The ledger prototype's fixed-width encodings: account states and transaction intents. */
module Commitments {
  import opened Text
  import opened JsonParser
  import opened Bytes
  import opened Merkle

  // ---- addresses ----

  predicate IsAddress(s: string) {
    |s| == 44 && s[..4] == "sl1_" && forall i :: 4 <= i < 44 ==> IsHex(s[i])
  }

  function ZeroDigits(n: nat): (s: string)
    ensures |s| == n && forall i :: 0 <= i < n ==> s[i] == '0'
  {
    if n == 0 then "" else "0" + ZeroDigits(n - 1)
  }

  type Address = s: string | IsAddress(s) witness "sl1_" + ZeroDigits(40)

  /** The 20 bytes an address spells in hexadecimal. */
  function AddressBytes(a: Address): (bytes: Data)
    ensures |bytes| == 20
  {
    seq(20, i requires 0 <= i < 20 => 16 * HexValue(a[4 + 2 * i]) + HexValue(a[5 + 2 * i]))
  }

  /** Addresses that spell the same bytes are the same. */
  lemma AddressInjective(a: Address, b: Address)
    requires AddressBytes(a) == AddressBytes(b)
    ensures a == b
  {
    forall i | 0 <= i < 20 ensures a[4 + 2 * i] == b[4 + 2 * i] && a[5 + 2 * i] == b[5 + 2 * i] {
      assert AddressBytes(a)[i] == AddressBytes(b)[i];
      SameDigits(a[4 + 2 * i], a[5 + 2 * i], b[4 + 2 * i], b[5 + 2 * i]);
    }
    forall i | 4 <= i < 44 ensures a[i] == b[i] {
      var j := (i - 4) / 2;
      assert i == 4 + 2 * j || i == 5 + 2 * j;
    }
    forall i | 0 <= i < 4 ensures a[i] == b[i] {
      assert a[i] == a[..4][i] && b[i] == b[..4][i];
    }
  }

  lemma SameDigits(a: char, b: char, c: char, d: char)
    requires IsHex(a) && IsHex(b) && IsHex(c) && IsHex(d)
    requires 16 * HexValue(a) + HexValue(b) == 16 * HexValue(c) + HexValue(d)
    ensures a == c && b == d
  {
    assert HexValue(a) == HexValue(c) && HexValue(b) == HexValue(d);
  }

  // ---- account states ----

  datatype Account = Account(balance: int, nonce: int)

  const TWO128 := TWO64 * TWO64

  /** What the fixed widths hold; writing anything else is a range error. */
  predicate InRange(a: Account) {
    0 <= a.balance < TWO128 && 0 <= a.nonce < TWO64
  }

  /** A wide value as two 64-bit words, low word first. */
  function TwoWords(n: nat): (bytes: Data)
    requires n < TWO128
    ensures |bytes| == 16
  {
    LE(n % TWO64, 8) + LE(n / TWO64, 8)
  }

  function ReadWords(bytes: Data): nat
    requires |bytes| == 16
  {
    FromLE(bytes[..8]) + TWO64 * FromLE(bytes[8..])
  }

  lemma WordsReadBack(n: nat)
    requires n < TWO128
    ensures ReadWords(TwoWords(n)) == n
  {
    PowValues();
    assert n / TWO64 < TWO64 by { HighWord(n); }
    ReadLE(n % TWO64, 8);
    ReadLE(n / TWO64, 8);
    assert TwoWords(n)[..8] == LE(n % TWO64, 8) && TwoWords(n)[8..] == LE(n / TWO64, 8);
  }

  lemma HighWord(n: nat)
    requires n < TWO128
    ensures n / TWO64 < TWO64
  {
  }

  function AccountRecord(address: Address, a: Account): (bytes: Data)
    requires InRange(a)
    ensures |bytes| == 44
  {
    AddressBytes(address) + TwoWords(a.balance) + LE(a.nonce, 8)
  }

  type Accounts = map<Address, Account>

  predicate AllInRange(accounts: Accounts) {
    forall a :: a in accounts ==> InRange(accounts[a])
  }

  function Records(accounts: Accounts, keys: seq<Address>): Data
    requires AllInRange(accounts) && forall a :: a in keys ==> a in accounts
  {
    if keys == [] then []
    else
      var k := |keys| - 1;
      Records(accounts, keys[..k]) + AccountRecord(keys[k], accounts[keys[k]])
  }

  /** The keys in the order `Object.keys(accounts).sort()` gives. */
  function SortedKeys(accounts: Accounts): (keys: seq<Address>)
    ensures forall a :: a in keys <==> a in accounts
    ensures forall i, j :: 0 <= i < j < |keys| ==> keys[i] != keys[j]
  {
    var texts: set<string> := set a | a in accounts :: a;
    var sorted := Sorted(texts);
    assert forall i :: 0 <= i < |sorted| ==> sorted[i] in sorted && sorted[i] in texts;
    sorted
  }

  /** The bytes the state root hashes; None is the source's range error. */
  function StateBytes(accounts: Accounts): Option<Data> {
    if AllInRange(accounts) then Some(Records(accounts, SortedKeys(accounts))) else None
  }

  method AccountBuffer(address: Address, a: Account) returns (bytes: Option<Data>)
    ensures bytes == if InRange(a) then Some(AccountRecord(address, a)) else None
  {
    hide LE;
    WordRange(a.balance);
    var buffer := new Byte[44];
    var addressBytes := AddressBytes(address);
    forall i | 0 <= i < 20 { buffer[i] := addressBytes[i]; }
    assert buffer[..20] == addressBytes;
    var low := WriteBigUInt64LE(buffer, a.balance % TWO64, 20);
    assert buffer[..28] == addressBytes + LE(a.balance % TWO64, 8);
    var high := WriteBigUInt64LE(buffer, a.balance / TWO64, 28);
    if !high {
      return None;
    }
    assert buffer[..36] == addressBytes + LE(a.balance % TWO64, 8) + LE(a.balance / TWO64, 8);
    var nonce := WriteBigUInt64LE(buffer, a.nonce, 36);
    if !nonce {
      return None;
    }
    assert buffer[..] == addressBytes + (LE(a.balance % TWO64, 8) + LE(a.balance / TWO64, 8)) + LE(a.nonce, 8);
    bytes := Some(buffer[..]);
  }

  lemma WordRange(n: int)
    ensures 0 <= n % TWO64 < TWO64
    ensures 0 <= n / TWO64 < TWO64 <==> 0 <= n < TWO128
  {
  }

  method CalculateStateRoot(sha: Sha, accounts: Accounts) returns (root: Option<Block>)
    ensures root == match StateBytes(accounts) case Some(bytes) => Some(sha(bytes)) case None => None
  {
    hide AccountRecord, InRange, SortedKeys, Records;
    var keys := SortedKeys(accounts);
    var bytes: Data := [];
    assert AllInRange(accounts) ==> Records(accounts, []) == [] by { NoRecords(accounts); }
    assert keys[..0] == [];
    for i := 0 to |keys|
      invariant forall j :: 0 <= j < i ==> InRange(accounts[keys[j]])
      invariant AllInRange(accounts) ==> bytes == Records(accounts, keys[..i])
    {
      assert keys[i] in keys;
      var record := AccountBuffer(keys[i], accounts[keys[i]]);
      if record.None? {
        assert !AllInRange(accounts);
        return None;
      }
      if AllInRange(accounts) { RecordsStep(accounts, keys, i); }
      bytes := bytes + record.value;
    }
    assert keys[..|keys|] == keys;
    forall a | a in accounts ensures InRange(accounts[a]) {
      assert a in keys;
    }
    root := Some(sha(bytes));
  }

  lemma NoRecords(accounts: Accounts)
    ensures AllInRange(accounts) ==> Records(accounts, []) == []
  {
  }

  lemma RecordsStep(accounts: Accounts, keys: seq<Address>, i: nat)
    requires AllInRange(accounts) && i < |keys| && forall a :: a in keys ==> a in accounts
    ensures keys[i] in accounts
    ensures Records(accounts, keys[..i + 1]) == Records(accounts, keys[..i]) + AccountRecord(keys[i], accounts[keys[i]])
  {
    hide AccountRecord, InRange;
    assert keys[i] in keys && keys[..i + 1][..i] == keys[..i];
  }

  // ---- reading records back ----

  /** A record's 44 bytes fix its address and its account. */
  lemma RecordFixes(x: Address, a: Account, y: Address, b: Account)
    requires InRange(a) && InRange(b) && AccountRecord(x, a) == AccountRecord(y, b)
    ensures x == y && a == b
  {
    hide LE, AddressBytes, TwoWords, IsAddress;
    var r, s := AccountRecord(x, a), AccountRecord(y, b);
    assert r[..20] == AddressBytes(x) && s[..20] == AddressBytes(y);
    assert r[20..36] == TwoWords(a.balance) && s[20..36] == TwoWords(b.balance);
    assert r[36..] == LE(a.nonce, 8) && s[36..] == LE(b.nonce, 8);
    AddressInjective(x, y);
    WordsReadBack(a.balance);
    WordsReadBack(b.balance);
    PowValues();
    ReadLE(a.nonce, 8);
    ReadLE(b.nonce, 8);
  }

  lemma {:induction false} RecordsLength(accounts: Accounts, keys: seq<Address>)
    requires AllInRange(accounts) && forall a :: a in keys ==> a in accounts
    ensures |Records(accounts, keys)| == 44 * |keys|
  {
    hide AccountRecord;
    if keys != [] { RecordsLength(accounts, keys[..|keys| - 1]); }
  }

  lemma {:induction false} RecordsFix(x: Accounts, keysX: seq<Address>, y: Accounts, keysY: seq<Address>)
    requires AllInRange(x) && AllInRange(y)
    requires (forall a :: a in keysX ==> a in x) && (forall a :: a in keysY ==> a in y)
    requires Records(x, keysX) == Records(y, keysY)
    ensures keysX == keysY && forall a :: a in keysX ==> x[a] == y[a]
    decreases |keysX|
  {
    hide AccountRecord, InRange;
    RecordsLength(x, keysX);
    RecordsLength(y, keysY);
    if keysX != [] {
      var k := |keysX| - 1;
      var p, q := keysX[k], keysY[k];
      var r, s := Records(x, keysX), Records(y, keysY);
      RecordsLength(x, keysX[..k]);
      RecordsLength(y, keysY[..k]);
      assert r == Records(x, keysX[..k]) + AccountRecord(p, x[p])
        && s == Records(y, keysY[..k]) + AccountRecord(q, y[q]);
      assert r[..44 * k] == Records(x, keysX[..k]) && s[..44 * k] == Records(y, keysY[..k]);
      assert r[44 * k..] == AccountRecord(p, x[p]) && s[44 * k..] == AccountRecord(q, y[q]);
      RecordFixes(p, x[p], q, y[q]);
      RecordsFix(x, keysX[..k], y, keysY[..k]);
      assert keysX == keysX[..k] + [p] && keysY == keysY[..k] + [q];
    }
  }

  /** Equal state roots mean equal accounts, in whatever order they were entered. */
  lemma StateRootFixesAccounts(sha: Sha, x: Accounts, y: Accounts)
    requires StateBytes(x).Some? && StateBytes(y).Some?
    requires sha(StateBytes(x).value) == sha(StateBytes(y).value) ==> StateBytes(x) == StateBytes(y)
    ensures sha(StateBytes(x).value) == sha(StateBytes(y).value) <==> x == y
  {
    hide AccountRecord, InRange;
    if StateBytes(x) == StateBytes(y) {
      RecordsFix(x, SortedKeys(x), y, SortedKeys(y));
      assert forall a :: a in x <==> a in SortedKeys(x);
      assert forall a :: a in y <==> a in SortedKeys(y);
      assert x.Keys == y.Keys;
    }
  }

  // ---- intents ----

  datatype Intent = Intent(chainId: Data, nonce: int, expiresAt: int, feeLimit: int, actionEnum: int, payload: Data)

  const DOMAIN_TEXT := "SIMPLE_L1::TX::V1"

  /** The domain text in ASCII, filled up to 32 bytes. */
  function DomainBytes(): (bytes: Data)
    ensures |bytes| == 32
  {
    seq(17, i requires 0 <= i < 17 => DOMAIN_TEXT[i] as int % 256) + Zeros(15)
  }

  predicate IntentInRange(i: Intent) {
    0 <= i.nonce < TWO64 && 0 <= i.expiresAt < TWO64 && 0 <= i.feeLimit < TWO128
    && 0 <= i.actionEnum < 256 && |i.payload| < 0x1_0000_0000
  }

  function Header(sha: Sha, i: Intent): (bytes: Data)
    requires IntentInRange(i)
    ensures |bytes| == 97
  {
    DomainBytes() + sha(i.chainId) + LE(i.nonce, 8) + LE(i.expiresAt, 8) + TwoWords(i.feeLimit) + [i.actionEnum]
  }

  function IntentBytes(sha: Sha, i: Intent): Option<Data> {
    if IntentInRange(i) then Some(Header(sha, i) + LE(|i.payload|, 4) + i.payload) else None
  }

  /** The action and the domain are written in place; range errors give up. */
  method SerializeIntent(sha: Sha, i: Intent) returns (bytes: Option<Data>)
    ensures bytes == IntentBytes(sha, i)
  {
    hide LE, DomainBytes;
    WordRange(i.feeLimit);
    var buffer := new Byte[97];
    var domain: Data, chain: Data := DomainBytes(), sha(i.chainId);
    forall k | 0 <= k < 32 { buffer[k] := domain[k]; }
    forall k | 0 <= k < 32 { buffer[32 + k] := chain[k]; }
    assert buffer[..64] == domain + chain;
    var nonce := WriteBigUInt64LE(buffer, i.nonce, 64);
    if !nonce { return None; }
    assert buffer[..72] == domain + chain + LE(i.nonce, 8);
    var expires := WriteBigUInt64LE(buffer, i.expiresAt, 72);
    if !expires { return None; }
    assert buffer[..80] == domain + chain + LE(i.nonce, 8) + LE(i.expiresAt, 8);
    var low := WriteBigUInt64LE(buffer, i.feeLimit % TWO64, 80);
    assert buffer[..88] == domain + chain + LE(i.nonce, 8) + LE(i.expiresAt, 8) + LE(i.feeLimit % TWO64, 8);
    var high := WriteBigUInt64LE(buffer, i.feeLimit / TWO64, 88);
    if !high || i.actionEnum < 0 || i.actionEnum >= 256 { return None; }
    buffer[96] := i.actionEnum;
    assert buffer[..96] == domain + chain + LE(i.nonce, 8) + LE(i.expiresAt, 8) + TwoWords(i.feeLimit);
    assert buffer[..] == buffer[..96] + [i.actionEnum];
    if |i.payload| >= 0x1_0000_0000 { return None; }
    bytes := Some(buffer[..] + LE(|i.payload|, 4) + i.payload);
  }

  datatype IntentFields = IntentFields(nonce: nat, expiresAt: nat, feeLimit: nat, actionEnum: nat, payload: Data)

  /** Reads the fields at their offsets, the nonce at byte 64. */
  function ReadIntent(bytes: Data): Option<IntentFields> {
    if |bytes| < 101 then None
    else
      var length := FromLE(bytes[97..101]);
      if |bytes| != 101 + length then None
      else Some(IntentFields(FromLE(bytes[64..72]), FromLE(bytes[72..80]), ReadWords(bytes[80..96]), bytes[96],
                             bytes[101..]))
  }

  lemma HeaderParts(sha: Sha, i: Intent)
    requires IntentInRange(i)
    ensures var b := Header(sha, i);
      b[32..64] == sha(i.chainId) && b[64..72] == LE(i.nonce, 8) && b[72..80] == LE(i.expiresAt, 8)
      && b[80..96] == TwoWords(i.feeLimit) && b[96] == i.actionEnum
  {
    hide LE, DomainBytes, TwoWords;
  }

  /** A serialised intent reads back as itself, and fixes the digest of the chain id. */
  lemma IntentReadsBack(sha: Sha, i: Intent)
    requires IntentBytes(sha, i).Some?
    ensures var bytes := IntentBytes(sha, i).value;
      && ReadIntent(bytes) == Some(IntentFields(i.nonce, i.expiresAt, i.feeLimit, i.actionEnum, i.payload))
      && bytes[32..64] == sha(i.chainId)
  {
    hide LE, DomainBytes, TwoWords, Header, FromLE, ReadWords;
    var header, bytes := Header(sha, i), IntentBytes(sha, i).value;
    HeaderParts(sha, i);
    PowValues();
    ReadLE(i.nonce, 8);
    ReadLE(i.expiresAt, 8);
    ReadLE(|i.payload|, 4);
    WordsReadBack(i.feeLimit);
    assert bytes[..97] == header;
    assert bytes[32..64] == header[32..64] && bytes[64..72] == header[64..72] && bytes[72..80] == header[72..80];
    assert bytes[80..96] == header[80..96] && bytes[96] == header[96];
    assert bytes[97..101] == LE(|i.payload|, 4) && bytes[101..] == i.payload;
  }

  /** Two intents with the same bytes are the same intent. */
  lemma IntentInjective(sha: Sha, i: Intent, j: Intent)
    requires IntentBytes(sha, i).Some? && IntentBytes(sha, i) == IntentBytes(sha, j)
    requires sha(i.chainId) == sha(j.chainId) ==> i.chainId == j.chainId
    ensures i == j
  {
    hide IntentBytes, ReadIntent;
    IntentReadsBack(sha, i);
    IntentReadsBack(sha, j);
  }
}
