/**
 * The address checks the keeper borrows from its collaborators. Their parsing rules are not
 * part of this model: each check is a parameter, so every property proved here holds for any
 * implementation of them, and `Lawful` names the two facts about them that the round trips use.
 */
module Addresses {
  import opened Bytes
  import opened Wrappers
  import opened Keys

  datatype AddressCodec = AddressCodec(
    verifyAddressFormat: AccAddress -> bool,              // sdk.VerifyAddressFormat
    accAddressFromBech32: String -> Option<AccAddress>,   // sdk.AccAddressFromBech32
    newEthAddress: String -> Option<EthAddress>,          // types.NewEthAddress
    ethHex: EthAddress -> String)                         // EthAddress.GetAddress().Hex()

  /**
   * A parsed Bech32 address always passes the format check (AccAddressFromBech32 runs it),
   * and the empty string is never a valid Ethereum address.
   */
  ghost predicate Lawful(a: AddressCodec)
  {
    && (forall s: String :: a.accAddressFromBech32(s).Some? ==> a.verifyAddressFormat(a.accAddressFromBech32(s).value))
    && (forall s: String :: a.newEthAddress(s).Some? ==> s != [])
  }
}
