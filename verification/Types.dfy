/** Value types shared by every layer of the node: types/types.go and the go-ethereum words it uses. */
module Types {

  const TWO_64 := 0x1_0000_0000_0000_0000
  const TWO_160 := 0x1_0000_0000_0000_0000_0000_0000_0000_0000_0000_0000
  const TWO_255 := 0x8000_0000_0000_0000_0000_0000_0000_0000_0000_0000_0000_0000_0000_0000_0000_0000
  const TWO_256 := 0x1_0000_0000_0000_0000_0000_0000_0000_0000_0000_0000_0000_0000_0000_0000_0000_0000

  type Uint64 = n: nat | n < TWO_64
  type Uint256 = n: nat | n < TWO_256

  /** common.Address: 20 bytes read as a big-endian number. */
  type Address = n: nat | n < TWO_160

  /** common.Hash: 32 bytes read as a big-endian number. */
  type Hash = n: nat | n < TWO_256

  newtype byte = b: int | 0 <= b < 256

  type Code = seq<byte>

  const ZERO_HASH: Hash := 0

  /** types.EmptyCodeHash, the Keccak-256 hash of the empty byte string. */
  const EMPTY_CODE_HASH: Hash := 0xc5d2_4601_86f7_233c_927e_7db2_dcc7_03c0_e500_b653_ca82_273b_7bfa_d804_5d85_a470

  datatype Option<+T> = None | Some(value: T)

  /** The state of an account (types.AccountValue). The version is a uint64 in the source. */
  datatype AccountValue = AccountValue(nonce: Uint64, balance: Uint256, codeHash: Hash, dirtyStorage: bool,
                                       version: nat)

  /** The canonical value of an account that does not exist at the given version. */
  function EmptyAccount(version: nat): AccountValue {
    AccountValue(0, 0, EMPTY_CODE_HASH, false, version)
  }

  /** The three account states encoded in a version (worldstate/mutableaccount_impl.go). */
  const NOT_EXISTED := 0
  const UPDATING := 1
  const BEING_DELETED := 2
  const VERSIONS := 3

  /** A world state is addressed by block height and root hash. */
  datatype StateKey = StateKey(height: nat, root: Hash)

  /** One block's changes (types.LayerLog); the string keys of UpdatedStorage are pairs here. */
  datatype LayerLog = LayerLog(
    blockNumber: nat,
    rootHash: Hash,
    updatedAccounts: map<Address, AccountValue>,
    updatedCodeCount: map<Hash, int>,
    codePreimage: map<Hash, Code>,
    updatedStorage: map<(Address, nat), map<Hash, Hash>>)
}
