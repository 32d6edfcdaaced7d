/** Contracts, errors, the delivery rule and the HWY1 frame layout. */
module Transport {
  import opened Wire

  const HEADER_BYTES: nat := 38
  const CREDIT_BYTES: nat := 9

  datatype Delivery = Ordered | Latest

  /** Whether `next` may come directly after `previous` on one link. */
  predicate Follows(delivery: Delivery, previous: U64, next: U64) {
    match delivery
    case Ordered => previous < U64_MAX && previous + 1 == next
    case Latest => next > previous
  }

  /** Fixed by the two composition roots, never by bytes of the peer. */
  datatype Contract = Contract(event: U128, major: U16, revision: U32, delivery: Delivery)

  /** The variants that carry a nested enumeration keep only its number. */
  datatype Error =
    | Closed
    | Revoked
    | Protocol
    | Capacity
    | Io(code: int)
    | Wire(detail: nat)
    | Topic(detail: nat)
    | Receive(detail: nat)
    | Send(detail: nat)
    | Gap(from: U64, to: U64)

  datatype Direction = Import | Export

  /** One published value: its stream sequence and its encoded payload. */
  datatype Item = Item(sequence: U64, payload: seq<Byte>)

  function Magic(): seq<Byte> { [0x48, 0x57, 0x59, 0x31] }

  function HeaderOf(contract: Contract, sequence: U64, length: U32): (header: seq<Byte>)
    ensures |header| == HEADER_BYTES
  {
    Magic() + ToLe(contract.event, 16) + ToLe(contract.major, 2) + ToLe(contract.revision, 4)
    + ToLe(sequence, 8) + ToLe(length, 4)
  }

  function FrameOf(contract: Contract, item: Item): (frame: seq<Byte>)
    requires |item.payload| <= U32_MAX
    ensures |frame| == HEADER_BYTES + |item.payload|
  {
    HeaderOf(contract, item.sequence, |item.payload|) + item.payload
  }

  function CreditFor(sequence: U64): (credit: seq<Byte>)
    ensures |credit| == CREDIT_BYTES
  {
    [1] + ToLe(sequence, 8)
  }

  function FieldU32(bytes: seq<Byte>): U32
    requires |bytes| == 4
  {
    FieldWidths();
    FromLe(bytes)
  }

  function FieldU64(bytes: seq<Byte>): U64
    requires |bytes| == 8
  {
    FieldWidths();
    FromLe(bytes)
  }

  /** The first three header fields name this contract's event and wire major. */
  predicate HeaderAddresses(header: seq<Byte>, contract: Contract)
    requires |header| == HEADER_BYTES
  {
    && header[..4] == Magic()
    && header[4..20] == ToLe(contract.event, 16)
    && header[20..22] == ToLe(contract.major, 2)
  }

  function HeaderRevision(header: seq<Byte>): U32
    requires |header| == HEADER_BYTES
  {
    FieldU32(header[22..26])
  }

  function HeaderSequence(header: seq<Byte>): U64
    requires |header| == HEADER_BYTES
  {
    FieldU64(header[26..34])
  }

  function HeaderLength(header: seq<Byte>): U32
    requires |header| == HEADER_BYTES
  {
    FieldU32(header[34..38])
  }

  lemma FieldsApart(a: seq<Byte>, b: seq<Byte>, c: seq<Byte>, d: seq<Byte>, e: seq<Byte>, f: seq<Byte>)
    requires |a| == 4 && |b| == 16 && |c| == 2 && |d| == 4 && |e| == 8 && |f| == 4
    ensures var header := a + b + c + d + e + f;
            && header[..4] == a && header[4..20] == b && header[20..22] == c
            && header[22..26] == d && header[26..34] == e && header[34..38] == f
  {
  }

  lemma HeaderFields(contract: Contract, sequence: U64, length: U32)
    ensures var header := HeaderOf(contract, sequence, length);
            && header[..4] == Magic() && header[4..20] == ToLe(contract.event, 16)
            && header[20..22] == ToLe(contract.major, 2) && header[22..26] == ToLe(contract.revision, 4)
            && header[26..34] == ToLe(sequence, 8) && header[34..38] == ToLe(length, 4)
  {
    hide ToLe;
    FieldsApart(Magic(), ToLe(contract.event, 16), ToLe(contract.major, 2), ToLe(contract.revision, 4),
                ToLe(sequence, 8), ToLe(length, 4));
  }

  /** Every header parses back to the fields it was built from, and is accepted
      by exactly the contracts that agree on the event and the wire major. */
  lemma HeaderRoundTrip(contract: Contract, sequence: U64, length: U32, reader: Contract)
    ensures var header := HeaderOf(contract, sequence, length);
            && HeaderRevision(header) == contract.revision
            && HeaderSequence(header) == sequence
            && HeaderLength(header) == length
            && (HeaderAddresses(header, reader)
                <==> reader.event == contract.event && reader.major == contract.major)
  {
    FieldWidths();
    HeaderFields(contract, sequence, length);
    hide ToLe, FromLe, Pow256, HeaderOf, Magic;
    DecodeEncodeLe(contract.revision, 4);
    DecodeEncodeLe(sequence, 8);
    DecodeEncodeLe(length, 4);
    if HeaderAddresses(HeaderOf(contract, sequence, length), reader) {
      EncodeLeInjective(reader.event, contract.event, 16);
      EncodeLeInjective(reader.major, contract.major, 2);
    }
  }

  /** Where each field stands: the magic, then event, major, revision, sequence and length, each
      with its least significant byte first; a credit is a one and the sequence. */
  lemma Layout(contract: Contract, sequence: U64, length: U32)
    ensures var header := HeaderOf(contract, sequence, length);
            && (header[0] as char, header[1] as char, header[2] as char, header[3] as char) == ('H', 'W', 'Y', '1')
            && (forall i :: 0 <= i < 16 ==> header[4 + i] as int == contract.event / Pow256(i) % 256)
            && (forall i :: 0 <= i < 2 ==> header[20 + i] as int == contract.major / Pow256(i) % 256)
            && (forall i :: 0 <= i < 4 ==> header[22 + i] as int == contract.revision / Pow256(i) % 256)
            && (forall i :: 0 <= i < 8 ==> header[26 + i] as int == sequence / Pow256(i) % 256)
            && (forall i :: 0 <= i < 4 ==> header[34 + i] as int == length / Pow256(i) % 256)
    ensures CreditFor(sequence)[0] == 1
            && forall i :: 0 <= i < 8 ==> CreditFor(sequence)[1 + i] as int == sequence / Pow256(i) % 256
  {
    hide ToLe, Pow256;
    forall i | 0 <= i < 16 ensures ToLe(contract.event, 16)[i] as int == contract.event / Pow256(i) % 256 {
      Digits(contract.event, 16, i);
    }
    forall i | 0 <= i < 2 ensures ToLe(contract.major, 2)[i] as int == contract.major / Pow256(i) % 256 {
      Digits(contract.major, 2, i);
    }
    forall i | 0 <= i < 4 ensures ToLe(contract.revision, 4)[i] as int == contract.revision / Pow256(i) % 256
                          ensures ToLe(length, 4)[i] as int == length / Pow256(i) % 256 {
      Digits(contract.revision, 4, i);
      Digits(length, 4, i);
    }
    forall i | 0 <= i < 8 ensures ToLe(sequence, 8)[i] as int == sequence / Pow256(i) % 256 {
      Digits(sequence, 8, i);
    }
  }

  lemma CreditNamesSequence(sequence: U64)
    ensures var credit := CreditFor(sequence);
            credit[0] == 1 && credit[1..] == ToLe(sequence, 8) && FieldU64(credit[1..]) == sequence
  {
    FieldWidths();
    assert CreditFor(sequence)[1..] == ToLe(sequence, 8);
    DecodeEncodeLe(sequence, 8);
  }

  /** What the caller's codec did with the slice it was given. */
  datatype Encoding = CodecFailed(detail: nat, scribbled: seq<Byte>) | Wrote(count: nat, content: seq<Byte>)

  function EncodingBytes(encoding: Encoding): seq<Byte> {
    match encoding
    case CodecFailed(_, scribbled) => scribbled
    case Wrote(_, content) => content
  }

  datatype Encoded = Frame(total: nat) | EncodeError(error: Error)

  const INVALID_PAYLOAD: nat := 1

  /** Writes a payload and its header into caller-owned storage. The codec
      declares `declared` bytes and may fill that slice even when it fails. */
  method EncodeFrame(contract: Contract, sequence: U64, declared: nat, encoding: Encoding, output: array<Byte>)
    returns (result: Encoded)
    requires |EncodingBytes(encoding)| == declared
    modifies output
    ensures result.Frame? <==>
            && HEADER_BYTES + declared <= output.Length
            && declared <= U32_MAX
            && encoding.Wrote? && encoding.count == declared
    ensures result.Frame? ==>
            && result.total == HEADER_BYTES + declared
            && output[..result.total] == FrameOf(contract, Item(sequence, encoding.content))
            && output[result.total..] == old(output[result.total..])
    ensures result.EncodeError? && (HEADER_BYTES + declared > output.Length || declared > U32_MAX) ==>
              result.error == Capacity && output[..] == old(output[..])
    ensures result.EncodeError? && HEADER_BYTES + declared <= output.Length && declared <= U32_MAX ==>
              && result.error == Error.Wire(if encoding.CodecFailed? then encoding.detail else INVALID_PAYLOAD)
              && output[..HEADER_BYTES] == old(output[..HEADER_BYTES])
  {
    var total := HEADER_BYTES + declared;
    if total > output.Length {
      return EncodeError(Capacity);
    }
    if declared > U32_MAX {
      return EncodeError(Capacity);
    }
    Store(output, HEADER_BYTES, EncodingBytes(encoding));
    match encoding {
      case CodecFailed(detail, _) => return EncodeError(Error.Wire(detail));
      case Wrote(count, _) =>
        if count != declared {
          return EncodeError(Error.Wire(INVALID_PAYLOAD));
        }
    }
    label coded:
    WriteHeader(output, contract, sequence, declared);
    assert output[HEADER_BYTES..total] == output[HEADER_BYTES..][..declared];
    assert output[..total] == output[..HEADER_BYTES] + output[HEADER_BYTES..total];
    assert output[total..] == output[HEADER_BYTES..][declared..];
    return Frame(total);
  }

  method WriteHeader(output: array<Byte>, contract: Contract, sequence: U64, length: U32)
    requires HEADER_BYTES <= output.Length
    modifies output
    ensures output[..HEADER_BYTES] == HeaderOf(contract, sequence, length)
    ensures output[HEADER_BYTES..] == old(output[HEADER_BYTES..])
  {
    Append(output, 0, Magic());
    Append(output, 4, ToLe(contract.event, 16));
    Append(output, 20, ToLe(contract.major, 2));
    Append(output, 22, ToLe(contract.revision, 4));
    Append(output, 26, ToLe(sequence, 8));
    Append(output, 34, ToLe(length, 4));
  }

  /** Fills the next field of a header: the bytes before it stay a prefix. */
  method Append(output: array<Byte>, at: nat, bytes: seq<Byte>)
    requires at + |bytes| <= HEADER_BYTES <= output.Length
    modifies output
    ensures output[..at + |bytes|] == old(output[..at]) + bytes
    ensures output[HEADER_BYTES..] == old(output[HEADER_BYTES..])
  {
    Store(output, at, bytes);
    assert output[HEADER_BYTES..] == output[..][HEADER_BYTES..];
  }

  /** Copies `bytes` into the array at `at`. */
  method Store(output: array<Byte>, at: nat, bytes: seq<Byte>)
    requires at + |bytes| <= output.Length
    modifies output
    ensures output[..] == old(output[..at]) + bytes + old(output[at + |bytes|..])
  {
    for i := 0 to |bytes|
      invariant output[..] == old(output[..at]) + bytes[..i] + old(output[at + i..])
    {
      output[at + i] := bytes[i];
    }
  }
}
