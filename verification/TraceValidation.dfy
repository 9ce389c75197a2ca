/** Judging a validation trace: opcodes, contract creation, storage and paymaster context, over entity maps that are
    iterated in an order the language leaves open. */
module TraceValidation {
  import opened Wrappers
  import opened Text
  import opened UserOps
  import opened StorageRules
  import CallStack

  const BANNED_OPCODES := {
    "GASPRICE", "GASLIMIT", "DIFFICULTY", "TIMESTAMP", "BASEFEE", "BLOCKHASH", "NUMBER", "SELFBALANCE", "BALANCE",
    "ORIGIN", "GAS", "CREATE", "COINBASE", "SELFDESTRUCT"
  }

  const CREATE2 := "CREATE2"

  /** What the tracer collected in one level. */
  datatype LevelInfo = LevelInfo(opcodes: map<string, nat>, access: map<Address, Access>, contracts: set<Address>)

  datatype Entity = Entity(addr: Address, info: LevelInfo, isStaked: bool)

  /** Everything the verdict depends on. `stakes` holds the entities whose deposit was looked up and whether each is
      staked; `paymasterContext` decodes the return data of the paymaster's validation call into whether it returned a
      context. */
  datatype Input = Input(
    op: UserOp,
    entryPoint: Address,
    stakes: map<Address, bool>,
    exceptions: (string, string, Slot) -> seq<string>,
    levels: seq<LevelInfo>,
    keccak: seq<seq<Byte>>,
    hash: seq<Byte> -> Slot,
    calls: seq<CallStack.CallInfo>,
    paymasterSelector: string,
    paymasterContext: string -> Option<bool>,
    sum: Checksum)

  /** The entities of an operation. */
  datatype Role = Factory | Account | Paymaster {
    function Name(): string {
      match this
      case Factory => "factory"
      case Account => "account"
      case Paymaster => "paymaster"
    }
  }

  const ROLES := {Factory, Account, Paymaster}

  function Staked(input: Input, a: Address): bool {
    a in input.stakes && input.stakes[a]
  }

  function EntityOf(input: Input, role: Role): Entity
    requires |input.levels| == 3
  {
    match role
    case Factory => Entity(input.op.Factory(), input.levels[0], Staked(input, input.op.Factory()))
    case Account => Entity(input.op.sender, input.levels[1], Staked(input, input.op.sender))
    case Paymaster => Entity(input.op.Paymaster(), input.levels[2], Staked(input, input.op.Paymaster()))
  }

  /** The slots of an address: none for one whose stake was not looked up, nor for the zero address. */
  ghost function EntitySlots(input: Input, a: Address): set<Slot> {
    if a in input.stakes && a != ZERO_ADDRESS then SlotsOf(input.keccak, input.hash, a) else {}
  }

  ghost function ValidatorOf(input: Input, role: Role): Validator
    requires |input.levels| == 3
  {
    var e := EntityOf(input, role);
    Validator(input.op, input.entryPoint, input.exceptions, EntitySlots(input, input.op.sender),
              EntityOf(input, Factory).isStaked, role.Name(), e.addr, e.info.access, EntitySlots(input, e.addr), e.isStaked,
              input.sum)
  }

  // ---------------------------------------------------------------------------------------------
  // The declarative rules
  // ---------------------------------------------------------------------------------------------

  predicate NoBannedOpcode(info: LevelInfo) {
    info.opcodes.Keys !! BANNED_OPCODES
  }

  /** A factory may use CREATE2 once, and only when there is init code; nobody else may use it. */
  predicate Create2Allowed(input: Input)
    requires |input.levels| == 3
  {
    && (CREATE2 in input.levels[0].opcodes ==> input.levels[0].opcodes[CREATE2] <= 1 && input.op.initCode != [])
    && CREATE2 !in input.levels[1].opcodes
    && CREATE2 !in input.levels[2].opcodes
  }

  function Returns(input: Input): seq<CallStack.CallEntry> {
    CallStack.Run(CallStack.State([], []), input.calls).out
  }

  /** A returned paymaster validation must decode, and only a staked paymaster may return a context. */
  predicate ContextAllowed(input: Input, e: CallStack.CallEntry)
    requires |input.levels| == 3
  {
    e.selector == input.paymasterSelector ==>
      && input.paymasterContext(e.returned).Some?
      && (input.paymasterContext(e.returned).value ==> EntityOf(input, Paymaster).isStaked)
  }

  ghost predicate Lawful(input: Input) {
    && |input.levels| == 3
    && (forall role :: role in ROLES ==> NoBannedOpcode(EntityOf(input, role).info))
    && Create2Allowed(input)
    && (forall role :: role in ROLES ==> Accepted(ValidatorOf(input, role)))
    && (forall i :: 0 <= i < |Returns(input)| ==> ContextAllowed(input, Returns(input)[i]))
  }

  // ---------------------------------------------------------------------------------------------
  // The same rules level by level and slot by slot
  // ---------------------------------------------------------------------------------------------

  /** The slot lies at most 128 after the hash of a hashed word that starts with the address. Only addresses whose stake
      was looked up have such slots. */
  ghost predicate Near(input: Input, who: Address, slot: Slot) {
    && who in input.stakes && who != 0
    && exists i :: 0 <= i < |input.keccak| && BigEndian(who, 32) <= input.keccak[i]
                   && input.hash(input.keccak[i]) <= slot <= input.hash(input.keccak[i]) + 128
  }

  predicate HasStake(input: Input, who: Address) {
    who in input.stakes && input.stakes[who]
  }

  /** How messages and exceptions name an address. */
  predicate Titled(input: Input, a: Address, title: string) {
    if a == input.op.Factory() then title == "factory"
    else if a == input.op.sender then title == "account"
    else if a == input.op.Paymaster() then title == "paymaster"
    else title == AddressText(a, input.sum)
  }

  /** The entity may touch the slot of contract `a`: a slot of the sender, freely unless the operation deploys the sender
      with an unstaked factory or it is another entity that touches it; a slot of its own, with a stake; any other by an
      exception only. */
  ghost predicate SlotPermitted(input: Input, name: string, entity: Address, a: Address, slot: Slot) {
    if Near(input, input.op.sender, slot) then
      || input.op.initCode == []
      || (HasStake(input, input.op.Factory()) && entity == input.op.sender)
      || HasStake(input, entity)
    else if Near(input, entity, slot) || a == entity then HasStake(input, entity)
    else exists title :: Titled(input, a, title) && input.exceptions(name, title, slot) != []
  }

  /** The entity's level touches the slot of a contract other than the sender and the EntryPoint. */
  ghost predicate TouchesSlot(input: Input, info: LevelInfo, a: Address, slot: Slot) {
    && a in info.access && a != input.op.sender && a != input.entryPoint
    && (slot in info.access[a].readSlots || slot in info.access[a].writtenSlots)
  }

  ghost predicate LevelPermitted(input: Input, name: string, entity: Address, info: LevelInfo) {
    && (forall opcode :: opcode in info.opcodes ==> opcode !in {
         "GASPRICE", "GASLIMIT", "DIFFICULTY", "TIMESTAMP", "BASEFEE", "BLOCKHASH", "NUMBER", "SELFBALANCE", "BALANCE",
         "ORIGIN", "GAS", "CREATE", "COINBASE", "SELFDESTRUCT" })
    && (forall a, slot :: TouchesSlot(input, info, a, slot) ==> SlotPermitted(input, name, entity, a, slot))
  }

  /** The first level is the factory's, the second the account's and the third the paymaster's. */
  ghost predicate Permitted(input: Input) {
    && |input.levels| == 3
    && LevelPermitted(input, "factory", input.op.Factory(), input.levels[0])
    && LevelPermitted(input, "account", input.op.sender, input.levels[1])
    && LevelPermitted(input, "paymaster", input.op.Paymaster(), input.levels[2])
    && ("CREATE2" in input.levels[0].opcodes ==> input.levels[0].opcodes["CREATE2"] <= 1 && input.op.initCode != [])
    && "CREATE2" !in input.levels[1].opcodes && "CREATE2" !in input.levels[2].opcodes
    && forall call :: call in Returns(input) && call.selector == input.paymasterSelector ==>
         && input.paymasterContext(call.returned).Some?
         && (input.paymasterContext(call.returned).value ==> HasStake(input, input.op.Paymaster()))
  }

  lemma NearIff(input: Input, who: Address, slot: Slot)
    ensures Associated(EntitySlots(input, who), slot) <==> Near(input, who, slot)
  {
    if who in input.stakes && who != ZERO_ADDRESS {
      if Associated(EntitySlots(input, who), slot) {
        var k :| k in EntitySlots(input, who) && k <= slot <= k + 128;
        var i :| 0 <= i < |input.keccak| && StartsWith(input.keccak[i], who) && k == input.hash(input.keccak[i]);
        assert BigEndian(who, 32) <= input.keccak[i];
      }
      if Near(input, who, slot) {
        var i :| 0 <= i < |input.keccak| && BigEndian(who, 32) <= input.keccak[i]
                 && input.hash(input.keccak[i]) <= slot <= input.hash(input.keccak[i]) + 128;
        assert StartsWith(input.keccak[i], who);
        assert input.hash(input.keccak[i]) in EntitySlots(input, who);
      }
    }
  }

  /** The validator of an entity by its name, address and level. */
  ghost function ValidatorFor(input: Input, name: string, entity: Address, info: LevelInfo): Validator {
    Validator(input.op, input.entryPoint, input.exceptions, EntitySlots(input, input.op.sender),
              HasStake(input, input.op.Factory()), name, entity, info.access, EntitySlots(input, entity),
              HasStake(input, entity), input.sum)
  }

  lemma TitledIs(input: Input, a: Address)
    ensures forall title :: Titled(input, a, title) <==> title == KnownEntity(input.op, a, input.sum)
  {
    hide AddressText;
  }

  lemma JudgeIff(input: Input, name: string, entity: Address, info: LevelInfo, a: Address, slot: Slot)
    ensures var v := ValidatorFor(input, name, entity, info); var verdict := Judge(v, a, slot);
      verdict != Forbidden && (verdict == NeedsStake ==> v.entityIsStaked) <==> SlotPermitted(input, name, entity, a, slot)
  {
    hide Associated, EntitySlots, Near, Titled, KnownEntity;
    NearIff(input, input.op.sender, slot);
    NearIff(input, entity, slot);
    TitledIs(input, a);
    if input.exceptions(name, KnownEntity(input.op, a, input.sum), slot) != [] {
      assert Titled(input, a, KnownEntity(input.op, a, input.sum));
    }
  }

  lemma AcceptedIff(input: Input, name: string, entity: Address, info: LevelInfo)
    ensures Accepted(ValidatorFor(input, name, entity, info)) <==>
            forall a, slot :: TouchesSlot(input, info, a, slot) ==> SlotPermitted(input, name, entity, a, slot)
  {
    hide Judge, SlotPermitted, EntitySlots;
    var v := ValidatorFor(input, name, entity, info);
    forall a, slot
      ensures (Judge(v, a, slot) != Forbidden && (Judge(v, a, slot) == NeedsStake ==> v.entityIsStaked)) <==>
              SlotPermitted(input, name, entity, a, slot)
    {
      JudgeIff(input, name, entity, info, a, slot);
    }
    if Accepted(v) {
      forall a, slot | TouchesSlot(input, info, a, slot)
        ensures SlotPermitted(input, name, entity, a, slot)
      {
        assert AddressAllowed(v, a);
        assert Touches(v.entityAccess[a], slot);
      }
    }
    if forall a, slot :: TouchesSlot(input, info, a, slot) ==> SlotPermitted(input, name, entity, a, slot) {
      forall a | a in v.entityAccess
        ensures AddressAllowed(v, a)
      {
        if !Exempt(v, a) {
          forall slot | Touches(v.entityAccess[a], slot)
            ensures Judge(v, a, slot) != Forbidden && (Judge(v, a, slot) == NeedsStake ==> v.entityIsStaked)
          {
            assert TouchesSlot(input, info, a, slot);
          }
        }
      }
    }
  }

  lemma LevelIff(input: Input, name: string, entity: Address, info: LevelInfo)
    ensures NoBannedOpcode(info) && Accepted(ValidatorFor(input, name, entity, info)) <==>
            LevelPermitted(input, name, entity, info)
  {
    hide SlotPermitted, Accepted, ValidatorFor, TouchesSlot;
    AcceptedIff(input, name, entity, info);
  }

  lemma ContextsIff(input: Input)
    requires |input.levels| == 3
    ensures (forall i :: 0 <= i < |Returns(input)| ==> ContextAllowed(input, Returns(input)[i])) <==>
            forall call :: call in Returns(input) && call.selector == input.paymasterSelector ==>
              && input.paymasterContext(call.returned).Some?
              && (input.paymasterContext(call.returned).value ==> HasStake(input, input.op.Paymaster()))
  {
    hide Returns;
    var calls := Returns(input);
    if forall i :: 0 <= i < |calls| ==> ContextAllowed(input, calls[i]) {
      forall call | call in calls && call.selector == input.paymasterSelector
        ensures input.paymasterContext(call.returned).Some?
        ensures input.paymasterContext(call.returned).value ==> HasStake(input, input.op.Paymaster())
      {
        var i :| 0 <= i < |calls| && calls[i] == call;
        assert ContextAllowed(input, calls[i]);
      }
    }
  }

  /** A trace is lawful if and only if it is permitted level by level and slot by slot. */
  lemma LawfulIff(input: Input)
    ensures Lawful(input) <==> Permitted(input)
  {
    if |input.levels| == 3 {
      hide NoBannedOpcode, Accepted, LevelPermitted, Returns, EntitySlots;
      LevelIff(input, "factory", input.op.Factory(), input.levels[0]);
      LevelIff(input, "account", input.op.sender, input.levels[1]);
      LevelIff(input, "paymaster", input.op.Paymaster(), input.levels[2]);
      ContextsIff(input);
      hide ContextAllowed;
      assert ValidatorOf(input, Factory) == ValidatorFor(input, "factory", input.op.Factory(), input.levels[0]);
      assert ValidatorOf(input, Account) == ValidatorFor(input, "account", input.op.sender, input.levels[1]);
      assert ValidatorOf(input, Paymaster) == ValidatorFor(input, "paymaster", input.op.Paymaster(), input.levels[2]);
      hide ValidatorOf, ValidatorFor;
    }
  }

  // ---------------------------------------------------------------------------------------------
  // The loops
  // ---------------------------------------------------------------------------------------------

  /** One way to iterate over the maps: the entities for the opcode check, the entities again for the storage check, and
      the access maps of each entity. */
  datatype Iteration = Iteration(opcodeOrder: seq<Role>, storageOrder: seq<Role>, access: map<Role, Order>)

  ghost predicate IterationOf(it: Iteration, input: Input) {
    && ListsOnce(it.opcodeOrder, ROLES) && ListsOnce(it.storageOrder, ROLES) && it.access.Keys == ROLES
    && (|input.levels| == 3 ==> forall role :: role in ROLES ==> OrderOf(it.access[role], ValidatorOf(input, role)))
  }

  ghost function IdsOfEntity(input: Input, it: Iteration, role: Role): seq<string>
    requires |input.levels| == 3
  {
    if role !in it.access then []
    else IdsOf(ValidatorOf(input, role), it.access[role], |it.access[role].addresses|)
  }

  ghost function TraceIds(input: Input, it: Iteration, n: nat): seq<string>
    requires |input.levels| == 3 && n <= |it.storageOrder|
  {
    if n == 0 then [] else TraceIds(input, it, n - 1) + IdsOfEntity(input, it, it.storageOrder[n - 1])
  }

  method CheckOpcodes(input: Input, order: seq<Role>) returns (ok: bool, touched: set<Address>)
    requires |input.levels| == 3 && ListsOnce(order, ROLES)
    ensures ok <==> forall role :: role in ROLES ==> NoBannedOpcode(EntityOf(input, role).info)
    ensures ok ==> touched == input.levels[0].contracts + input.levels[1].contracts + input.levels[2].contracts
  {
    hide NoBannedOpcode;
    touched := {};
    for i := 0 to |order|
      invariant forall j :: 0 <= j < i ==> NoBannedOpcode(EntityOf(input, order[j]).info)
      invariant touched == set j, a | 0 <= j < i && a in EntityOf(input, order[j]).info.contracts :: a
    {
      assert order[i] in order;
      var e := EntityOf(input, order[i]);
      var banned := FindBanned(e.info);
      if banned {
        return false, {};
      }
      touched := touched + e.info.contracts;
    }
    AllContracts(input, order, touched);
    ok := true;
  }

  method FindBanned(info: LevelInfo) returns (found: bool)
    ensures found <==> !NoBannedOpcode(info)
  {
    var rest := info.opcodes.Keys;
    while rest != {}
      invariant rest <= info.opcodes.Keys
      invariant info.opcodes.Keys - rest !! BANNED_OPCODES
      decreases |rest|
    {
      var opcode :| opcode in rest;
      if opcode in BANNED_OPCODES {
        return true;
      }
      rest := rest - {opcode};
    }
    return false;
  }

  lemma AllContracts(input: Input, order: seq<Role>, touched: set<Address>)
    requires |input.levels| == 3 && ListsOnce(order, ROLES)
    requires touched == set j, a | 0 <= j < |order| && a in EntityOf(input, order[j]).info.contracts :: a
    ensures touched == input.levels[0].contracts + input.levels[1].contracts + input.levels[2].contracts
  {
    assert Factory in order && Account in order && Paymaster in order;
    var f :| 0 <= f < |order| && order[f] == Factory;
    var a :| 0 <= a < |order| && order[a] == Account;
    var p :| 0 <= p < |order| && order[p] == Paymaster;
    assert EntityOf(input, order[f]).info == input.levels[0];
    assert EntityOf(input, order[a]).info == input.levels[1];
    assert EntityOf(input, order[p]).info == input.levels[2];
    assert forall j :: 0 <= j < |order| ==> order[j] in ROLES;
  }

  function Lookup(slots: map<Address, set<Slot>>, a: Address): set<Slot> {
    if a in slots then slots[a] else {}
  }

  /** The validator of an entity, from the slots that were looked up. */
  function NewValidator(input: Input, slots: map<Address, set<Slot>>, role: Role): Validator
    requires |input.levels| == 3
  {
    var e := EntityOf(input, role);
    Validator(input.op, input.entryPoint, input.exceptions, Lookup(slots, input.op.sender),
              EntityOf(input, Factory).isStaked, role.Name(), e.addr, e.info.access, Lookup(slots, e.addr), e.isStaked,
              input.sum)
  }

  lemma NewValidatorIs(input: Input, slots: map<Address, set<Slot>>, role: Role)
    requires |input.levels| == 3 && forall a :: Lookup(slots, a) == EntitySlots(input, a)
    ensures NewValidator(input, slots, role) == ValidatorOf(input, role)
  {
    hide EntitySlots, Lookup, EntityOf;
  }

  lemma RoleAt(input: Input, it: Iteration, i: nat)
    requires IterationOf(it, input) && i < |it.storageOrder|
    ensures it.storageOrder[i] in ROLES
  {
    hide OrderOf, ValidatorOf;
    assert it.storageOrder[i] in it.storageOrder;
  }

  lemma AllRolesAccepted(input: Input, it: Iteration)
    requires |input.levels| == 3 && IterationOf(it, input)
    requires forall j :: 0 <= j < |it.storageOrder| ==> Accepted(ValidatorOf(input, it.storageOrder[j]))
    ensures forall role :: role in ROLES ==> Accepted(ValidatorOf(input, role))
  {
    hide OrderOf, ValidatorOf, Accepted;
  }

  method CheckStorage(input: Input, it: Iteration) returns (ok: bool, ids: seq<string>)
    requires |input.levels| == 3 && IterationOf(it, input)
    ensures ok <==> forall role :: role in ROLES ==> Accepted(ValidatorOf(input, role))
    ensures ok ==> ids == TraceIds(input, it, |it.storageOrder|)
  {
    hide Accepted, IterationOf, TraceIds, ValidatorOf, Lookup, EntitySlots, SlotsOf;
    var slots := NewStorageSlotsByEntity(input.stakes.Keys, input.keccak, input.hash);
    SlotsLookup(input, slots);
    ok, ids := CheckEntities(input, it, slots);
  }

  method CheckEntities(input: Input, it: Iteration, slots: map<Address, set<Slot>>) returns (ok: bool, ids: seq<string>)
    requires |input.levels| == 3 && IterationOf(it, input)
    requires forall a :: Lookup(slots, a) == EntitySlots(input, a)
    ensures ok <==> forall role :: role in ROLES ==> Accepted(ValidatorOf(input, role))
    ensures ok ==> ids == TraceIds(input, it, |it.storageOrder|)
  {
    hide Accepted, IterationOf, IdsOfEntity, ValidatorOf, Lookup, EntitySlots;
    ids := [];
    for i := 0 to |it.storageOrder|
      invariant forall j :: 0 <= j < i ==> Accepted(ValidatorOf(input, it.storageOrder[j]))
      invariant ids == TraceIds(input, it, i)
    {
      RoleAt(input, it, i);
      var accepted, more := CheckEntity(input, it, slots, it.storageOrder[i]);
      if !accepted {
        return false, ids;
      }
      ids := ids + more;
    }
    AllRolesAccepted(input, it);
    ok := true;
  }

  method CheckEntity(input: Input, it: Iteration, slots: map<Address, set<Slot>>, role: Role)
    returns (ok: bool, ids: seq<string>)
    requires |input.levels| == 3 && IterationOf(it, input) && role in ROLES
    requires forall a :: Lookup(slots, a) == EntitySlots(input, a)
    ensures ok <==> Accepted(ValidatorOf(input, role))
    ensures ok ==> ids == IdsOfEntity(input, it, role)
  {
    hide Accepted, OrderOf, IdsOf, ValidatorOf, NewValidator, Lookup, EntitySlots, ListsOnce;
    NewValidatorIs(input, slots, role);
    ok, ids := StorageRules.Process(NewValidator(input, slots, role), it.access[role]);
  }

  lemma SlotsLookup(input: Input, slots: map<Address, set<Slot>>)
    requires slots.Keys == if input.keccak == [] then {} else input.stakes.Keys - {ZERO_ADDRESS}
    requires forall a :: a in slots ==> slots[a] == SlotsOf(input.keccak, input.hash, a)
    ensures forall a :: Lookup(slots, a) == EntitySlots(input, a)
  {
    hide SlotsOf;
    forall a: Address
      ensures Lookup(slots, a) == EntitySlots(input, a)
    {
      NoSlots(input.hash, a);
    }
  }

  method CheckContext(input: Input) returns (ok: bool)
    requires |input.levels| == 3
    ensures ok <==> forall i :: 0 <= i < |Returns(input)| ==> ContextAllowed(input, Returns(input)[i])
  {
    hide CallStack.Run;
    var entries := CallStack.NewCallStack(input.calls);
    assert entries == Returns(input);
    for i := 0 to |entries|
      invariant forall j :: 0 <= j < i ==> ContextAllowed(input, entries[j])
    {
      var call := entries[i];
      assert call == Returns(input)[i];
      if call.selector == input.paymasterSelector {
        var decoded := input.paymasterContext(call.returned);
        if decoded.None? {
          return false;
        }
        if decoded.value && !EntityOf(input, Paymaster).isStaked {
          return false;
        }
      }
    }
    return true;
  }

  datatype Output = Output(touchedContracts: set<Address>, altMempoolIds: seq<string>)

  /** The verdict on a trace, for every order of iteration: it accepts exactly the lawful traces and reports every
      contract that some entity touched. */
  method TraceSimulateValidation(input: Input, it: Iteration) returns (r: Option<Output>)
    requires IterationOf(it, input)
    ensures r.Some? <==> Lawful(input)
    ensures r.Some? <==> Permitted(input)
    ensures r.Some? ==>
      && r.value.touchedContracts == input.levels[0].contracts + input.levels[1].contracts + input.levels[2].contracts
      && r.value.altMempoolIds == TraceIds(input, it, |it.storageOrder|)
  {
    hide NoBannedOpcode, Accepted, ContextAllowed, CallStack.Run, OrderOf, IdsOf, Permitted;
    LawfulIff(input);
    if |input.levels| != 3 {
      return None;
    }
    var clean, touched := CheckOpcodes(input, it.opcodeOrder);
    if !clean {
      return None;
    }
    if CREATE2 in input.levels[0].opcodes && (input.levels[0].opcodes[CREATE2] > 1 || |input.op.initCode| == 0) {
      return None;
    }
    if CREATE2 in input.levels[1].opcodes {
      return None;
    }
    if CREATE2 in input.levels[2].opcodes {
      return None;
    }
    var stored, ids := CheckStorage(input, it);
    if !stored {
      return None;
    }
    var context := CheckContext(input);
    if !context {
      return None;
    }
    return Some(Output(touched, ids));
  }

  // ---------------------------------------------------------------------------------------------
  // Alternative mempools
  // ---------------------------------------------------------------------------------------------

  ghost function EntityWeight(input: Input, it: Iteration, id: string): Role -> nat
    requires |input.levels| == 3
  {
    (role: Role) => Occurrences(IdsOfEntity(input, it, role), id)
  }

  lemma {:induction false} TraceOccurrences(input: Input, it: Iteration, n: nat, id: string)
    requires |input.levels| == 3 && n <= |it.storageOrder|
    ensures Occurrences(TraceIds(input, it, n), id) == Sum(it.storageOrder[..n], EntityWeight(input, it, id))
  {
    hide IdsOfEntity;
    if n > 0 {
      TraceOccurrences(input, it, n - 1, id);
      assert it.storageOrder[..n][..n - 1] == it.storageOrder[..n - 1];
    }
  }

  /** Two orders of iteration report the same mempool ids, each as often. */
  lemma TraceIdsOrderFree(input: Input, it1: Iteration, it2: Iteration)
    requires |input.levels| == 3 && IterationOf(it1, input) && IterationOf(it2, input)
    ensures multiset(TraceIds(input, it1, |it1.storageOrder|)) == multiset(TraceIds(input, it2, |it2.storageOrder|))
  {
    hide OrderOf, IdsOf, TraceIds, ValidatorOf, Sum;
    var ids1, ids2 := TraceIds(input, it1, |it1.storageOrder|), TraceIds(input, it2, |it2.storageOrder|);
    forall id
      ensures Occurrences(ids1, id) == Occurrences(ids2, id)
    {
      TraceOccurrences(input, it1, |it1.storageOrder|, id);
      TraceOccurrences(input, it2, |it2.storageOrder|, id);
      assert it1.storageOrder[..|it1.storageOrder|] == it1.storageOrder;
      assert it2.storageOrder[..|it2.storageOrder|] == it2.storageOrder;
      var f, g := EntityWeight(input, it1, id), EntityWeight(input, it2, id);
      forall role | role in ROLES
        ensures f(role) == g(role)
      {
        IdsOrderFree(ValidatorOf(input, role), it1.access[role], it2.access[role]);
      }
      SumOrderFree(it1.storageOrder, it2.storageOrder, ROLES, f, g);
    }
    SameOccurrences(ids1, ids2);
  }

  /** The entity of a level touches a slot that belongs to neither the sender nor itself, by leave of the mempool `id`. */
  ghost predicate ReportedBy(input: Input, name: string, entity: Address, info: LevelInfo, id: string) {
    exists a, slot, title ::
      && TouchesSlot(input, info, a, slot) && a != entity
      && !Near(input, input.op.sender, slot) && !Near(input, entity, slot)
      && Titled(input, a, title) && id in input.exceptions(name, title, slot)
  }

  lemma ReportedIff(input: Input, name: string, entity: Address, info: LevelInfo, o: Order, id: string)
    requires OrderOf(o, ValidatorFor(input, name, entity, info))
    ensures id in IdsOf(ValidatorFor(input, name, entity, info), o, |o.addresses|) <==>
            ReportedBy(input, name, entity, info, id)
  {
    hide OrderOf, IdsOf, KnownEntity, Near, EntitySlots, Associated, Titled;
    var v := ValidatorFor(input, name, entity, info);
    IdIsCollectedIff(v, o, id);
    forall a, slot
      ensures Titled(input, a, KnownEntity(input.op, a, input.sum))
      ensures forall title :: Titled(input, a, title) ==> title == KnownEntity(input.op, a, input.sum)
      ensures Associated(v.senderSlots, slot) <==> Near(input, input.op.sender, slot)
      ensures Associated(v.entitySlots, slot) <==> Near(input, entity, slot)
    {
      TitledIs(input, a);
      NearIff(input, input.op.sender, slot);
      NearIff(input, entity, slot);
    }
    if a, slot :| a in v.entityAccess && !Exempt(v, a) && Touches(v.entityAccess[a], slot) && ExceptedBy(v, a, slot, id) {
      assert TouchesSlot(input, info, a, slot);
      assert Titled(input, a, KnownEntity(input.op, a, input.sum));
    }
    if a, slot, title :| TouchesSlot(input, info, a, slot) && a != entity
                         && !Near(input, input.op.sender, slot) && !Near(input, entity, slot)
                         && Titled(input, a, title) && id in input.exceptions(name, title, slot) {
      assert title == KnownEntity(input.op, a, input.sum);
      assert ExceptedBy(v, a, slot, id);
      assert a in v.entityAccess && !Exempt(v, a) && Touches(v.entityAccess[a], slot);
    }
  }

  lemma {:induction false} IdOfTrace(input: Input, it: Iteration, n: nat, id: string)
    requires |input.levels| == 3 && n <= |it.storageOrder|
    ensures id in TraceIds(input, it, n) <==> exists i :: 0 <= i < n && id in IdsOfEntity(input, it, it.storageOrder[i])
  {
    hide IdsOfEntity;
    if n > 0 {
      IdOfTrace(input, it, n - 1, id);
    }
  }

  lemma IdOfRoles(input: Input, it: Iteration, id: string)
    requires |input.levels| == 3 && IterationOf(it, input)
    ensures id in TraceIds(input, it, |it.storageOrder|) <==>
            || id in IdsOfEntity(input, it, Factory) || id in IdsOfEntity(input, it, Account)
            || id in IdsOfEntity(input, it, Paymaster)
  {
    hide IdsOfEntity, OrderOf, ValidatorOf, TraceIds;
    IdOfTrace(input, it, |it.storageOrder|, id);
    assert Factory in it.storageOrder && Account in it.storageOrder && Paymaster in it.storageOrder;
    forall role | role in it.storageOrder && id in IdsOfEntity(input, it, role)
      ensures id in TraceIds(input, it, |it.storageOrder|)
    {
      var i :| 0 <= i < |it.storageOrder| && it.storageOrder[i] == role;
    }
    if i :| 0 <= i < |it.storageOrder| && id in IdsOfEntity(input, it, it.storageOrder[i]) {
      match it.storageOrder[i]
      case Factory =>
      case Account =>
      case Paymaster =>
    }
  }

  /** For every order of iteration: a mempool id is reported if and only if one of the three levels needs it. */
  lemma TraceIdIff(input: Input, it: Iteration, id: string)
    requires |input.levels| == 3 && IterationOf(it, input)
    ensures id in TraceIds(input, it, |it.storageOrder|) <==>
            || ReportedBy(input, "factory", input.op.Factory(), input.levels[0], id)
            || ReportedBy(input, "account", input.op.sender, input.levels[1], id)
            || ReportedBy(input, "paymaster", input.op.Paymaster(), input.levels[2], id)
  {
    IdOfRoles(input, it, id);
    assert ValidatorOf(input, Factory) == ValidatorFor(input, "factory", input.op.Factory(), input.levels[0]);
    assert ValidatorOf(input, Account) == ValidatorFor(input, "account", input.op.sender, input.levels[1]);
    assert ValidatorOf(input, Paymaster) == ValidatorFor(input, "paymaster", input.op.Paymaster(), input.levels[2]);
    hide ReportedBy, OrderOf, ValidatorFor, ValidatorOf, IdsOf, TraceIds;
    assert Factory in ROLES && Account in ROLES && Paymaster in ROLES;
    ReportedIff(input, "factory", input.op.Factory(), input.levels[0], it.access[Factory], id);
    ReportedIff(input, "account", input.op.sender, input.levels[1], it.access[Account], id);
    ReportedIff(input, "paymaster", input.op.Paymaster(), input.levels[2], it.access[Paymaster], id);
  }
}
