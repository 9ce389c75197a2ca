/** UserOperations: their fields, their JSON form and the decoder that reads it back. */
module UserOps {
  import opened Wrappers
  import opened Text

  datatype UserOp = UserOp(
    sender: Address,
    nonce: nat,
    initCode: seq<Byte>,
    callData: seq<Byte>,
    callGasLimit: nat,
    verificationGasLimit: nat,
    preVerificationGas: nat,
    maxFeePerGas: nat,
    maxPriorityFeePerGas: nat,
    paymasterAndData: seq<Byte>,
    signature: seq<Byte>)
  {
    predicate Valid() {
      sender != ZERO_ADDRESS
    }

    /** The address that starts the paymaster data, or the zero address when it is too short to hold one. */
    function Paymaster(): Address {
      if |paymasterAndData| < 20 then ZERO_ADDRESS else BytesToAddress(paymasterAndData[..20])
    }

    function Factory(): Address {
      if |initCode| < 20 then ZERO_ADDRESS else BytesToAddress(initCode[..20])
    }

    function MaxGasAvailable(): nat {
      verificationGasLimit * (if Paymaster() != ZERO_ADDRESS then 3 else 1) + (preVerificationGas + callGasLimit)
    }

    /** The most that the sender or paymaster can be charged. */
    function MaxPrefund(): nat {
      MaxGasAvailable() * maxFeePerGas
    }

    /** The price per gas the operation pays at a given base fee. */
    function DynamicGasPrice(baseFee: nat): nat {
      if baseFee + maxPriorityFeePerGas > maxFeePerGas then maxFeePerGas else baseFee + maxPriorityFeePerGas
    }
  }

  /** Paymaster and factory are the first twenty bytes of their data, and zero when it is shorter. */
  lemma EntitiesAre(op: UserOp)
    ensures |op.paymasterAndData| < 20 ==> op.Paymaster() == 0
    ensures |op.paymasterAndData| >= 20 ==> BigEndian(op.Paymaster(), 20) == op.paymasterAndData[..20]
    ensures |op.initCode| < 20 ==> op.Factory() == 0
    ensures |op.initCode| >= 20 ==> BigEndian(op.Factory(), 20) == op.initCode[..20]
  {
    hide BigEndian, BytesToAddress;
    forall b: seq<Byte> | |b| >= 20
      ensures BigEndian(BytesToAddress(b[..20]), 20) == b[..20]
    {
      AddressBytes(b[..20]);
      assert b[..20][|b[..20]| - 20..] == b[..20];
    }
  }

  /** Naming a paymaster triples the verification gas that an operation may be charged for. */
  lemma PaymasterTriples(op: UserOp)
    ensures var plain := op.(paymasterAndData := []);
      && plain.MaxGasAvailable() == op.callGasLimit + op.verificationGasLimit + op.preVerificationGas
      && op.MaxGasAvailable() == plain.MaxGasAvailable() + (if op.Paymaster() == 0 then 0 else 2 * op.verificationGasLimit)
      && op.MaxPrefund() == op.maxFeePerGas * op.MaxGasAvailable()
  {
    hide BytesToAddress;
  }

  /** A value of a decoded JSON object. `Number` is a JSON number after truncation to an integer. */
  datatype Value = Str(text: string) | Number(n: int) | Other

  type JsonObject = map<string, Value>

  datatype DecodeError = MissingField(name: string) | BadField(name: string) | Rejected(name: string)

  /** The JSON object of an operation. */
  function ToMap(op: UserOp, sum: Checksum): JsonObject {
    map[
      "sender" := Str(AddressText(op.sender, sum)),
      "nonce" := Str(EncodeBig(op.nonce)),
      "initCode" := Str(EncodeBytes(op.initCode)),
      "callData" := Str(EncodeBytes(op.callData)),
      "callGasLimit" := Str(EncodeBig(op.callGasLimit)),
      "verificationGasLimit" := Str(EncodeBig(op.verificationGasLimit)),
      "preVerificationGas" := Str(EncodeBig(op.preVerificationGas)),
      "maxFeePerGas" := Str(EncodeBig(op.maxFeePerGas)),
      "maxPriorityFeePerGas" := Str(EncodeBig(op.maxPriorityFeePerGas)),
      "paymasterAndData" := Str(EncodeBytes(op.paymasterAndData)),
      "signature" := Str(EncodeBytes(op.signature))
    ]
  }

  function Field(data: JsonObject, name: string): Result<Value, DecodeError> {
    if name in data then Ok(data[name]) else Err(MissingField(name))
  }

  function AddressField(data: JsonObject, name: string): Result<Address, DecodeError> {
    var v :- Field(data, name);
    if v.Str? then Ok(HexToAddress(v.text)) else Err(BadField(name))
  }

  /** A big integer may arrive as text or as a number, and must not be negative. */
  function BigField(data: JsonObject, name: string): Result<nat, DecodeError> {
    match Field(data, name)
    case Err(e) => Err(e)
    case Ok(Other) => Err(BadField(name))
    case Ok(Number(n)) => Natural(n, name)
    case Ok(Str(s)) => (match DecodeBig(s) case None => Err(BadField(name)) case Some(n) => Natural(n, name))
  }

  function Natural(n: int, name: string): Result<nat, DecodeError> {
    if n < 0 then Err(Rejected(name)) else Ok(n)
  }

  function BytesField(data: JsonObject, name: string): Result<seq<Byte>, DecodeError> {
    var v :- Field(data, name);
    if !v.Str? then Err(BadField(name)) else
    match DecodeBytes(v.text)
    case None => Err(BadField(name))
    case Some(b) => Ok(b)
  }

  /** Decodes an object into an operation and validates its fields. Members of the object that are not fields of an
      operation are ignored. */
  function New(data: JsonObject): (r: Result<UserOp, DecodeError>)
    ensures r.Ok? ==> r.value.Valid()
  {
    var sender :- AddressField(data, "sender");
    var nonce :- BigField(data, "nonce");
    var initCode :- BytesField(data, "initCode");
    var callData :- BytesField(data, "callData");
    var callGasLimit :- BigField(data, "callGasLimit");
    var verificationGasLimit :- BigField(data, "verificationGasLimit");
    var preVerificationGas :- BigField(data, "preVerificationGas");
    var maxFeePerGas :- BigField(data, "maxFeePerGas");
    var maxPriorityFeePerGas :- BigField(data, "maxPriorityFeePerGas");
    var paymasterAndData :- BytesField(data, "paymasterAndData");
    var signature :- BytesField(data, "signature");
    if sender == ZERO_ADDRESS then Err(Rejected("sender")) else
    Ok(UserOp(sender, nonce, initCode, callData, callGasLimit, verificationGasLimit, preVerificationGas,
              maxFeePerGas, maxPriorityFeePerGas, paymasterAndData, signature))
  }

  // ---------------------------------------------------------------------------------------------
  // What the decoder accepts
  // ---------------------------------------------------------------------------------------------

  const BIG_FIELDS := {
    "nonce", "callGasLimit", "verificationGasLimit", "preVerificationGas", "maxFeePerGas", "maxPriorityFeePerGas"
  }

  const BYTES_FIELDS := {"initCode", "callData", "paymasterAndData", "signature"}

  predicate ReadsAddress(data: JsonObject, name: string, a: Address) {
    name in data && data[name].Str? && HexToAddress(data[name].text) == a
  }

  predicate ReadsBig(data: JsonObject, name: string, n: int) {
    name in data && (data[name] == Number(n) || (data[name].Str? && DecodeBig(data[name].text) == Some(n)))
  }

  predicate ReadsBytes(data: JsonObject, name: string, b: seq<Byte>) {
    name in data && data[name].Str? && DecodeBytes(data[name].text) == Some(b)
  }

  /** The object holds a text or number for each field of `op`, whatever else it holds. */
  predicate Reads(data: JsonObject, op: UserOp) {
    && ReadsAddress(data, "sender", op.sender)
    && ReadsBig(data, "nonce", op.nonce)
    && ReadsBytes(data, "initCode", op.initCode)
    && ReadsBytes(data, "callData", op.callData)
    && ReadsBig(data, "callGasLimit", op.callGasLimit)
    && ReadsBig(data, "verificationGasLimit", op.verificationGasLimit)
    && ReadsBig(data, "preVerificationGas", op.preVerificationGas)
    && ReadsBig(data, "maxFeePerGas", op.maxFeePerGas)
    && ReadsBig(data, "maxPriorityFeePerGas", op.maxPriorityFeePerGas)
    && ReadsBytes(data, "paymasterAndData", op.paymasterAndData)
    && ReadsBytes(data, "signature", op.signature)
  }

  lemma BigFieldIff(data: JsonObject, name: string, n: nat)
    ensures BigField(data, name) == Ok(n) <==> ReadsBig(data, name, n)
  {
    hide DecodeBig;
  }

  lemma BytesFieldIff(data: JsonObject, name: string, b: seq<Byte>)
    ensures BytesField(data, name) == Ok(b) <==> ReadsBytes(data, name, b)
  {
    hide DecodeBytes;
  }

  /** An object decodes to an operation if and only if the operation has a sender and each of its fields is read from
      the member of that name. */
  lemma NewIff(data: JsonObject, op: UserOp)
    ensures New(data) == Ok(op) <==> op.Valid() && Reads(data, op)
  {
    hide BigField, BytesField, HexToAddress, ReadsBig, ReadsBytes;
    BigFieldIff(data, "nonce", op.nonce);
    BytesFieldIff(data, "initCode", op.initCode);
    BytesFieldIff(data, "callData", op.callData);
    BigFieldIff(data, "callGasLimit", op.callGasLimit);
    BigFieldIff(data, "verificationGasLimit", op.verificationGasLimit);
    BigFieldIff(data, "preVerificationGas", op.preVerificationGas);
    BigFieldIff(data, "maxFeePerGas", op.maxFeePerGas);
    BigFieldIff(data, "maxPriorityFeePerGas", op.maxPriorityFeePerGas);
    BytesFieldIff(data, "paymasterAndData", op.paymasterAndData);
    BytesFieldIff(data, "signature", op.signature);
  }

  /** The error names a member that is missing, cannot be read as its field's type, or is read as a negative number or
      the zero address. */
  ghost predicate Fault(data: JsonObject, e: DecodeError) {
    && e.name in BIG_FIELDS + BYTES_FIELDS + {"sender"}
    && match e
       case MissingField(name) => name !in data
       case BadField(name) =>
         && name in data
         && (name in BIG_FIELDS ==> forall n :: !ReadsBig(data, name, n))
         && (name in BYTES_FIELDS ==> forall b :: !ReadsBytes(data, name, b))
         && (name == "sender" ==> !data[name].Str?)
       case Rejected(name) =>
         if name == "sender" then ReadsAddress(data, name, ZERO_ADDRESS) else exists n :: n < 0 && ReadsBig(data, name, n)
  }

  lemma BigFieldFault(data: JsonObject, name: string)
    requires name in BIG_FIELDS && BigField(data, name).Err?
    ensures Fault(data, BigField(data, name).error)
  {
    hide DecodeBig;
    if name in data && data[name].Number? {
      assert ReadsBig(data, name, data[name].n);
    } else if name in data && data[name].Str? && DecodeBig(data[name].text).Some? {
      assert ReadsBig(data, name, DecodeBig(data[name].text).value);
    }
  }

  lemma BytesFieldFault(data: JsonObject, name: string)
    requires name in BYTES_FIELDS && BytesField(data, name).Err?
    ensures Fault(data, BytesField(data, name).error)
  {
    hide DecodeBytes;
  }

  /** A refused object has the fault that the error names. */
  lemma NewFault(data: JsonObject)
    requires New(data).Err?
    ensures Fault(data, New(data).error)
  {
    hide BigField, BytesField, HexToAddress, Fault;
    forall name | name in BIG_FIELDS && BigField(data, name).Err?
      ensures Fault(data, BigField(data, name).error)
    {
      BigFieldFault(data, name);
    }
    forall name | name in BYTES_FIELDS && BytesField(data, name).Err?
      ensures Fault(data, BytesField(data, name).error)
    {
      BytesFieldFault(data, name);
    }
    SenderFault(data);
  }

  lemma SenderFault(data: JsonObject)
    ensures AddressField(data, "sender").Err? ==> Fault(data, AddressField(data, "sender").error)
    ensures AddressField(data, "sender") == Ok(ZERO_ADDRESS) ==> Fault(data, Rejected("sender"))
  {
    hide HexToAddress;
  }

  // ---------------------------------------------------------------------------------------------
  // Round trips
  // ---------------------------------------------------------------------------------------------

  lemma BigFieldReadsBack(data: JsonObject, name: string, n: nat)
    requires name in data && data[name] == Str(EncodeBig(n))
    ensures BigField(data, name) == Ok(n)
  {
    BigReadsBack(n);
  }

  lemma BytesFieldReadsBack(data: JsonObject, name: string, b: seq<Byte>)
    requires name in data && data[name] == Str(EncodeBytes(b))
    ensures BytesField(data, name) == Ok(b)
  {
    BytesReadBack(b);
  }

  predicate Has(data: JsonObject, name: string, text: string) {
    name in data && data[name] == Str(text)
  }

  /** The object holds the encoding of each field of `op`, whatever else it holds. */
  predicate Encodes(data: JsonObject, op: UserOp, sum: Checksum) {
    && Has(data, "sender", AddressText(op.sender, sum))
    && Has(data, "nonce", EncodeBig(op.nonce))
    && Has(data, "initCode", EncodeBytes(op.initCode))
    && Has(data, "callData", EncodeBytes(op.callData))
    && Has(data, "callGasLimit", EncodeBig(op.callGasLimit))
    && Has(data, "verificationGasLimit", EncodeBig(op.verificationGasLimit))
    && Has(data, "preVerificationGas", EncodeBig(op.preVerificationGas))
    && Has(data, "maxFeePerGas", EncodeBig(op.maxFeePerGas))
    && Has(data, "maxPriorityFeePerGas", EncodeBig(op.maxPriorityFeePerGas))
    && Has(data, "paymasterAndData", EncodeBytes(op.paymasterAndData))
    && Has(data, "signature", EncodeBytes(op.signature))
  }

  lemma ToMapEncodes(op: UserOp, sum: Checksum)
    ensures Encodes(ToMap(op, sum), op, sum)
  {
    hide EncodeBig, EncodeBytes, AddressText;
  }

  /** Every operation with a sender is read back from its JSON object. */
  lemma NewUndoesEncoding(data: JsonObject, op: UserOp, sum: Checksum)
    requires op.Valid() && Encodes(data, op, sum)
    ensures New(data) == Ok(op)
  {
    hide EncodeBig, EncodeBytes, AddressText, BigField, BytesField, HexToAddress;
    AddressReadsBack(op.sender, sum);
    BigFieldReadsBack(data, "nonce", op.nonce);
    BytesFieldReadsBack(data, "initCode", op.initCode);
    BytesFieldReadsBack(data, "callData", op.callData);
    BigFieldReadsBack(data, "callGasLimit", op.callGasLimit);
    BigFieldReadsBack(data, "verificationGasLimit", op.verificationGasLimit);
    BigFieldReadsBack(data, "preVerificationGas", op.preVerificationGas);
    BigFieldReadsBack(data, "maxFeePerGas", op.maxFeePerGas);
    BigFieldReadsBack(data, "maxPriorityFeePerGas", op.maxPriorityFeePerGas);
    BytesFieldReadsBack(data, "paymasterAndData", op.paymasterAndData);
    BytesFieldReadsBack(data, "signature", op.signature);
  }

  lemma NewUndoesToMap(op: UserOp, sum: Checksum)
    requires op.Valid()
    ensures New(ToMap(op, sum)) == Ok(op)
  {
    hide New, ToMap, Encodes;
    ToMapEncodes(op, sum);
    NewUndoesEncoding(ToMap(op, sum), op, sum);
  }

  /** Whatever text an operation was first read from, its stored form reads back as the same operation. */
  lemma StoredFormIsStable(data: JsonObject, sum: Checksum)
    requires New(data).Ok?
    ensures New(ToMap(New(data).value, sum)) == New(data)
  {
    hide ToMap;
    NewUndoesToMap(New(data).value, sum);
  }
}
