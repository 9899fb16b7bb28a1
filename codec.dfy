/**
 * The confirmation record (types.MsgConfirmBatch) and the codec that stores it.
 *
 * The stored value is the record's wire form, one entry per encoded field, with proto3 rules:
 * a field holding its zero value is not written, and unmarshalling MERGES the fields it reads
 * into the record it is given (last occurrence wins, unknown field numbers are skipped, a
 * field of the wrong wire type, field number 0, a varint longer than ten bytes or an oversized
 * length is malformed, and a ten-byte varint read into the 64-bit nonce keeps its low 64 bits).
 * The byte-level framing of these fields is not modelled.
 */
module Codec {
  import opened Bytes
  import opened Wrappers

  /** types.MsgConfirmBatch: one orchestrator's signature over one outgoing batch. */
  datatype Confirm = Confirm(
    nonce: Uint64,
    tokenContract: String,
    ethSigner: String,
    orchestrator: String,
    signature: String,
    chainId: String)

  /** The zero value of the record (`var confirm types.MsgConfirmBatch`). */
  const Empty: Confirm := Confirm(0, [], [], [], [], [])

  /** Field numbers of the record's message; string fields are 2 to 6. */
  const NonceField: nat := 1
  const TokenContractField: nat := 2
  const EthSignerField: nat := 3
  const OrchestratorField: nat := 4
  const SignatureField: nat := 5
  const ChainIdField: nat := 6

  /** One encoded field: a varint, or a length-delimited payload. */
  datatype Field = Varint(number: nat, n: nat) | Delimited(number: nat, data: seq<byte>)

  /** A stored value: the fields of one encoded message, in order. */
  type Wire = seq<Field>

  predicate IsStringField(number: nat)
  {
    TokenContractField <= number <= ChainIdField
  }

  /** The record with string field `number` replaced by `s`. */
  function SetString(number: nat, s: String, c: Confirm): Confirm
    requires IsStringField(number)
  {
    if number == TokenContractField then c.(tokenContract := s)
    else if number == EthSignerField then c.(ethSigner := s)
    else if number == OrchestratorField then c.(orchestrator := s)
    else if number == SignatureField then c.(signature := s)
    else c.(chainId := s)
  }

  /** A string field on the wire, or nothing when it holds the empty string. */
  function OmitEmpty(number: nat, s: String): Wire
  {
    if s == [] then [] else [Delimited(number, s)]
  }

  /** k.cdc.MustMarshal: the non-zero fields in field-number order. */
  function Marshal(c: Confirm): Wire
  {
    (if c.nonce == 0 then [] else [Varint(NonceField, c.nonce)])
    + (OmitEmpty(TokenContractField, c.tokenContract)
    + (OmitEmpty(EthSignerField, c.ethSigner)
    + (OmitEmpty(OrchestratorField, c.orchestrator)
    + (OmitEmpty(SignatureField, c.signature)
    + OmitEmpty(ChainIdField, c.chainId)))))
  }

  /** The values a varint of at most ten bytes (seven bits each) can carry: below 2^70. */
  const VarintBound: nat := 0x40_0000_0000_0000_0000

  /** Reads one field into the record; None when the field is malformed. */
  function ApplyField(f: Field, c: Confirm): Option<Confirm>
  {
    match f
    case Varint(number, n) =>
      if n >= VarintBound || number == 0 || IsStringField(number) then None
      else if number == NonceField then Some(c.(nonce := n % 0x1_0000_0000_0000_0000))
      else Some(c)
    case Delimited(number, data) =>
      if number == 0 || number == NonceField then None
      else if IsStringField(number) then
        if |data| < 0x8000_0000_0000_0000 then Some(SetString(number, data, c)) else None
      else Some(c)
  }

  /** k.cdc.Unmarshal(bytes, &into): the fields merged into `into`, in order; None when malformed. */
  function Unmarshal(w: Wire, into: Confirm): Option<Confirm>
    decreases |w|
  {
    if w == [] then Some(into)
    else
      match ApplyField(w[0], into)
      case None => None
      case Some(c) => Unmarshal(w[1..], c)
  }

  /** `value` unless it is the empty string, then `default`. */
  function StringOr(value: String, default: String): String
  {
    if value != [] then value else default
  }

  /** The record unmarshalling `from`'s encoding into `into` must give: every non-zero field of `from` wins. */
  function Merge(from: Confirm, into: Confirm): Confirm
  {
    Confirm(
      if from.nonce != 0 then from.nonce else into.nonce,
      StringOr(from.tokenContract, into.tokenContract),
      StringOr(from.ethSigner, into.ethSigner),
      StringOr(from.orchestrator, into.orchestrator),
      StringOr(from.signature, into.signature),
      StringOr(from.chainId, into.chainId))
  }

  lemma UnmarshalNonce(n: Uint64, rest: Wire, into: Confirm)
    ensures Unmarshal((if n == 0 then [] else [Varint(NonceField, n)]) + rest, into)
         == Unmarshal(rest, if n == 0 then into else into.(nonce := n))
  {
    if n != 0 {
      assert ([Varint(NonceField, n)] + rest)[1..] == rest;
    } else {
      assert [] + rest == rest;
    }
  }

  lemma UnmarshalOmitEmpty(number: nat, s: String, rest: Wire, into: Confirm)
    requires IsStringField(number)
    ensures Unmarshal(OmitEmpty(number, s) + rest, into)
         == Unmarshal(rest, if s == [] then into else SetString(number, s, into))
  {
    if s != [] {
      assert ([Delimited(number, s)] + rest)[1..] == rest;
    } else {
      assert [] + rest == rest;
    }
  }

  /** Unmarshalling a marshalled record into `into` never fails and merges the record's fields over `into`. */
  lemma UnmarshalMarshal(c: Confirm, into: Confirm)
    ensures Unmarshal(Marshal(c), into) == Some(Merge(c, into))
  {
    var w6 := OmitEmpty(ChainIdField, c.chainId);
    var w5 := OmitEmpty(SignatureField, c.signature) + w6;
    var w4 := OmitEmpty(OrchestratorField, c.orchestrator) + w5;
    var w3 := OmitEmpty(EthSignerField, c.ethSigner) + w4;
    var w2 := OmitEmpty(TokenContractField, c.tokenContract) + w3;
    var i1 := into.(nonce := if c.nonce != 0 then c.nonce else into.nonce);
    var i2 := i1.(tokenContract := StringOr(c.tokenContract, into.tokenContract));
    var i3 := i2.(ethSigner := StringOr(c.ethSigner, into.ethSigner));
    var i4 := i3.(orchestrator := StringOr(c.orchestrator, into.orchestrator));
    var i5 := i4.(signature := StringOr(c.signature, into.signature));
    var i6 := i5.(chainId := StringOr(c.chainId, into.chainId));
    assert Unmarshal(Marshal(c), into) == Unmarshal(w2, i1) by {
      assert Marshal(c) == (if c.nonce == 0 then [] else [Varint(NonceField, c.nonce)]) + w2;
      UnmarshalNonce(c.nonce, w2, into);
    }
    assert Unmarshal(w2, i1) == Unmarshal(w3, i2) by {
      UnmarshalOmitEmpty(TokenContractField, c.tokenContract, w3, i1);
    }
    assert Unmarshal(w3, i2) == Unmarshal(w4, i3) by {
      UnmarshalOmitEmpty(EthSignerField, c.ethSigner, w4, i2);
    }
    assert Unmarshal(w4, i3) == Unmarshal(w5, i4) by {
      UnmarshalOmitEmpty(OrchestratorField, c.orchestrator, w5, i3);
    }
    assert Unmarshal(w5, i4) == Unmarshal(w6, i5) by {
      UnmarshalOmitEmpty(SignatureField, c.signature, w6, i4);
    }
    assert Unmarshal(w6, i5) == Some(i6) by {
      assert w6 == OmitEmpty(ChainIdField, c.chainId) + [];
      UnmarshalOmitEmpty(ChainIdField, c.chainId, [], i5);
    }
  }

  /** Into the zero record, unmarshalling is the exact inverse of marshalling. */
  lemma UnmarshalMarshalEmpty(c: Confirm)
    ensures Unmarshal(Marshal(c), Empty) == Some(c)
  {
    UnmarshalMarshal(c, Empty);
  }
}
