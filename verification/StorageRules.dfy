/** The storage rules of validation: which slots an entity may touch, judged while iterating over maps in an order the
    language leaves open. */
module StorageRules {
  import opened Wrappers
  import opened Text
  import opened UserOps

  /** A storage slot, or the hash that starts a mapping's slots. */
  type Slot = nat

  datatype Access = Access(readSlots: set<Slot>, writtenSlots: set<Slot>)

  datatype Touch = Touch(write: bool, slot: Slot)

  /** Everything the judgement of one entity depends on. `exceptions` is the directory of alternative mempools: the ids
      that allow an entity to touch a contract's slot. */
  datatype Validator = Validator(
    op: UserOp,
    entryPoint: Address,
    exceptions: (string, string, Slot) -> seq<string>,
    senderSlots: set<Slot>,
    factoryIsStaked: bool,
    entityName: string,
    entityAddr: Address,
    entityAccess: map<Address, Access>,
    entitySlots: set<Slot>,
    entityIsStaked: bool,
    sum: Checksum)

  function KnownEntity(op: UserOp, addr: Address, sum: Checksum): string {
    if addr == op.Factory() then "factory"
    else if addr == op.sender then "account"
    else if addr == op.Paymaster() then "paymaster"
    else AddressText(addr, sum)
  }

  // ---------------------------------------------------------------------------------------------
  // Slots associated with an address
  // ---------------------------------------------------------------------------------------------

  ghost predicate Associated(slots: set<Slot>, slot: Slot) {
    exists k :: k in slots && k <= slot <= k + 128
  }

  /** The search loop, over the set in any order. */
  method IsAssociatedWith(slots: set<Slot>, slot: Slot) returns (b: bool)
    ensures b <==> Associated(slots, slot)
  {
    var rest := slots;
    while rest != {}
      invariant rest <= slots
      invariant forall k :: k in slots ==> k in rest || !(k <= slot <= k + 128)
      decreases |rest|
    {
      var k :| k in rest;
      if slot >= k && slot <= k + 128 {
        return true;
      }
      rest := rest - {k};
    }
    return false;
  }

  /** A hashed word starts with an address when its first 32 bytes are the address, padded on the left. */
  predicate StartsWith(preimage: seq<Byte>, addr: Address) {
    BigEndian(addr, 32) <= preimage
  }

  /** The slots an address has in a trace: the hashes of all words that start with it. */
  ghost function SlotsOf(keccak: seq<seq<Byte>>, hash: seq<Byte> -> Slot, addr: Address): set<Slot> {
    set i | 0 <= i < |keccak| && StartsWith(keccak[i], addr) :: hash(keccak[i])
  }

  /** Slots by entity. Entities in the stake map other than the zero address get an entry as soon as anything was
      hashed. */
  method NewStorageSlotsByEntity(stakes: set<Address>, keccak: seq<seq<Byte>>, hash: seq<Byte> -> Slot)
    returns (slots: map<Address, set<Slot>>)
    ensures slots.Keys == if keccak == [] then {} else stakes - {ZERO_ADDRESS}
    ensures forall a :: a in slots ==> slots[a] == SlotsOf(keccak, hash, a)
  {
    hide StartsWith, SlotsOf;
    slots := map[];
    for i := 0 to |keccak|
      invariant slots.Keys == if i == 0 then {} else stakes - {ZERO_ADDRESS}
      invariant forall a :: a in slots ==> slots[a] == SlotsOf(keccak[..i], hash, a)
    {
      slots := AddPreimage(slots, stakes, keccak[i], hash);
      assert keccak[..i] + [keccak[i]] == keccak[..i + 1];
      forall a | a in slots
        ensures slots[a] == SlotsOf(keccak[..i + 1], hash, a)
      {
        NoSlots(hash, a);
        SlotsOfMore(keccak[..i], keccak[i], hash, a);
      }
    }
    assert keccak[..|keccak|] == keccak;
  }

  lemma SlotsOfMore(keccak: seq<seq<Byte>>, k: seq<Byte>, hash: seq<Byte> -> Slot, a: Address)
    ensures SlotsOf(keccak + [k], hash, a) == SlotsOf(keccak, hash, a) + if StartsWith(k, a) then {hash(k)} else {}
  {
    hide StartsWith;
    var more := keccak + [k];
    forall s | s in SlotsOf(more, hash, a)
      ensures s in SlotsOf(keccak, hash, a) + if StartsWith(k, a) then {hash(k)} else {}
    {
      var i :| 0 <= i < |more| && StartsWith(more[i], a) && s == hash(more[i]);
      assert i < |keccak| ==> keccak[i] == more[i];
    }
    forall s | s in SlotsOf(keccak, hash, a)
      ensures s in SlotsOf(more, hash, a)
    {
      var i :| 0 <= i < |keccak| && StartsWith(keccak[i], a) && s == hash(keccak[i]);
      assert more[i] == keccak[i];
    }
    assert more[|keccak|] == k;
  }

  /** The slots of an address after one more hashed word. */
  function WithPreimage(slots: map<Address, set<Slot>>, k: seq<Byte>, hash: seq<Byte> -> Slot, a: Address): set<Slot> {
    (if a in slots then slots[a] else {}) + if StartsWith(k, a) then {hash(k)} else {}
  }

  /** One hashed word, checked against every staked address. */
  method AddPreimage(slots: map<Address, set<Slot>>, stakes: set<Address>, k: seq<Byte>, hash: seq<Byte> -> Slot)
    returns (r: map<Address, set<Slot>>)
    requires slots.Keys <= stakes - {ZERO_ADDRESS}
    ensures r.Keys == stakes - {ZERO_ADDRESS}
    ensures forall a :: a in r ==> r[a] == WithPreimage(slots, k, hash, a)
  {
    hide WithPreimage, StartsWith;
    r := slots;
    var rest := stakes;
    while rest != {}
      invariant forall a :: a in rest ==> a in stakes
      invariant forall a :: a in r ==> a in stakes && a != ZERO_ADDRESS
      invariant forall a :: a in stakes && a != ZERO_ADDRESS ==> a in r || a in rest
      invariant forall a :: a in r && a !in rest ==> r[a] == WithPreimage(slots, k, hash, a)
      decreases |rest|
    {
      var addr :| addr in rest;
      if addr != ZERO_ADDRESS {
        var mine := NotePreimage(slots, k, hash, addr);
        r := r[addr := mine];
      }
      rest := rest - {addr};
    }
  }

  method NotePreimage(slots: map<Address, set<Slot>>, k: seq<Byte>, hash: seq<Byte> -> Slot, addr: Address)
    returns (mine: set<Slot>)
    ensures mine == WithPreimage(slots, k, hash, addr)
  {
    hide StartsWith;
    mine := {};
    if addr in slots {
      mine := slots[addr];
    }
    if StartsWith(k, addr) {
      mine := mine + {hash(k)};
    }
  }

  lemma NoSlots(hash: seq<Byte> -> Slot, a: Address)
    ensures SlotsOf([], hash, a) == {}
  {
  }

  // ---------------------------------------------------------------------------------------------
  // The rule for one slot
  // ---------------------------------------------------------------------------------------------

  datatype Verdict = Free | NeedsStake | Excepted(ids: seq<string>) | Forbidden

  /** The rule that storage access follows, as one case distinction. */
  ghost function Judge(v: Validator, addr: Address, slot: Slot): Verdict {
    var ids := v.exceptions(v.entityName, KnownEntity(v.op, addr, v.sum), slot);
    if Associated(v.senderSlots, slot) then
      (if v.op.initCode != [] && (!v.factoryIsStaked || v.entityAddr != v.op.sender) then NeedsStake else Free)
    else if Associated(v.entitySlots, slot) || addr == v.entityAddr then NeedsStake
    else if ids != [] then Excepted(ids)
    else Forbidden
  }

  predicate Exempt(v: Validator, addr: Address) {
    addr == v.op.sender || addr == v.entryPoint
  }

  ghost predicate Touches(access: Access, slot: Slot) {
    slot in access.readSlots || slot in access.writtenSlots
  }

  ghost predicate AddressAllowed(v: Validator, addr: Address)
    requires addr in v.entityAccess
  {
    Exempt(v, addr) ||
    forall slot :: Touches(v.entityAccess[addr], slot) ==>
      Judge(v, addr, slot) != Forbidden && (Judge(v, addr, slot) == NeedsStake ==> v.entityIsStaked)
  }

  /** The declarative rule: every touched slot is free, excepted, or needs a stake that the entity has. */
  ghost predicate Accepted(v: Validator) {
    forall addr :: addr in v.entityAccess ==> AddressAllowed(v, addr)
  }

  // ---------------------------------------------------------------------------------------------
  // The loops, in any order
  // ---------------------------------------------------------------------------------------------

  ghost predicate ListsOnce<T(!new)>(s: seq<T>, elements: set<T>) {
    && (forall x :: x in s <==> x in elements)
    && (forall i, j :: 0 <= i < j < |s| ==> s[i] != s[j])
  }

  /** Reads and writes of one address, each slot once per kind. */
  function TouchSet(a: Access): set<Touch> {
    (set s | s in a.readSlots :: Touch(false, s)) + (set s | s in a.writtenSlots :: Touch(true, s))
  }

  /** A slot that is both read and written is touched twice. */
  lemma TouchSetIs(a: Access, t: Touch)
    ensures t in TouchSet(a) <==> if t.write then t.slot in a.writtenSlots else t.slot in a.readSlots
  {
  }

  /** An order in which the maps may be iterated. */
  datatype Order = Order(addresses: seq<Address>, touches: map<Address, seq<Touch>>)

  ghost predicate OrderOf(o: Order, v: Validator) {
    && ListsOnce(o.addresses, v.entityAccess.Keys)
    && o.touches.Keys == v.entityAccess.Keys
    && forall a :: a in v.entityAccess ==> ListsOnce(o.touches[a], TouchSet(v.entityAccess[a]))
  }

  ghost function IdsOfTouch(v: Validator, addr: Address, t: Touch): seq<string> {
    match Judge(v, addr, t.slot)
    case Excepted(ids) => ids
    case _ => []
  }

  ghost function IdsOfTouches(v: Validator, addr: Address, ts: seq<Touch>): seq<string> {
    if ts == [] then [] else IdsOfTouches(v, addr, ts[..|ts| - 1]) + IdsOfTouch(v, addr, ts[|ts| - 1])
  }

  ghost function IdsOfAddress(v: Validator, o: Order, a: Address): seq<string> {
    if Exempt(v, a) || a !in o.touches then [] else IdsOfTouches(v, a, o.touches[a])
  }

  ghost function IdsOf(v: Validator, o: Order, n: nat): seq<string>
    requires n <= |o.addresses|
  {
    if n == 0 then [] else IdsOf(v, o, n - 1) + IdsOfAddress(v, o, o.addresses[n - 1])
  }

  /** The judging of one touched slot. */
  method JudgeTouch(v: Validator, addr: Address, slot: Slot) returns (verdict: Verdict)
    ensures verdict == Judge(v, addr, slot)
  {
    var ofSender := IsAssociatedWith(v.senderSlots, slot);
    if ofSender {
      if (|v.op.initCode| > 0 && !v.factoryIsStaked) ||
         (|v.op.initCode| > 0 && v.factoryIsStaked && v.entityAddr != v.op.sender) {
        return NeedsStake;
      }
      return Free;
    }
    var ofEntity := IsAssociatedWith(v.entitySlots, slot);
    if ofEntity || addr == v.entityAddr {
      return NeedsStake;
    }
    var ids := v.exceptions(v.entityName, KnownEntity(v.op, addr, v.sum), slot);
    if |ids| > 0 {
      return Excepted(ids);
    }
    return Forbidden;
  }

  method JudgeAddress(v: Validator, addr: Address, ts: seq<Touch>) returns (ok: bool, ids: seq<string>)
    requires addr in v.entityAccess && !Exempt(v, addr) && ListsOnce(ts, TouchSet(v.entityAccess[addr]))
    ensures ok <==> AddressAllowed(v, addr)
    ensures ok ==> ids == IdsOfTouches(v, addr, ts)
  {
    hide Judge, AddressAllowed, TouchSet, ListsOnce;
    ids := [];
    var mustStake: Option<Slot> := None;
    for i := 0 to |ts|
      invariant ids == IdsOfTouches(v, addr, ts[..i])
      invariant forall j :: 0 <= j < i ==> Judge(v, addr, ts[j].slot) != Forbidden
      invariant mustStake.Some? <==> exists j :: 0 <= j < i && Judge(v, addr, ts[j].slot) == NeedsStake
    {
      assert ts[..i + 1][..i] == ts[..i];
      var verdict := JudgeTouch(v, addr, ts[i].slot);
      match verdict {
        case Free =>
        case NeedsStake => mustStake := Some(ts[i].slot);
        case Excepted(more) => ids := ids + more;
        case Forbidden =>
          AllowedByVerdicts(v, addr, ts);
          return false, ids;
      }
    }
    assert ts[..|ts|] == ts;
    AllowedByVerdicts(v, addr, ts);
    ok := mustStake.None? || v.entityIsStaked;
  }

  /** The rule for an address, read off any listing of its touches. */
  lemma AllowedByVerdicts(v: Validator, addr: Address, ts: seq<Touch>)
    requires addr in v.entityAccess && !Exempt(v, addr) && ListsOnce(ts, TouchSet(v.entityAccess[addr]))
    ensures AddressAllowed(v, addr) <==> forall i :: 0 <= i < |ts| ==>
              Judge(v, addr, ts[i].slot) != Forbidden && (Judge(v, addr, ts[i].slot) == NeedsStake ==> v.entityIsStaked)
  {
    hide Judge;
    TouchesListed(v.entityAccess[addr], ts);
    hide TouchSet, ListsOnce, Touches;
  }

  lemma TouchesListed(a: Access, ts: seq<Touch>)
    requires ListsOnce(ts, TouchSet(a))
    ensures forall i :: 0 <= i < |ts| ==> Touches(a, ts[i].slot)
    ensures forall s :: Touches(a, s) ==> exists i :: 0 <= i < |ts| && ts[i].slot == s
  {
    forall i | 0 <= i < |ts|
      ensures Touches(a, ts[i].slot)
    {
      assert ts[i] in ts;
    }
    forall s | Touches(a, s)
      ensures exists i :: 0 <= i < |ts| && ts[i].slot == s
    {
      var t := Touch(s !in a.readSlots, s);
      assert t in TouchSet(a);
      assert t in ts;
    }
  }

  /** The validator: whatever the iteration order, it accepts exactly what the declarative rule accepts. */
  method Process(v: Validator, o: Order) returns (ok: bool, ids: seq<string>)
    requires OrderOf(o, v)
    ensures ok <==> Accepted(v)
    ensures ok ==> ids == IdsOf(v, o, |o.addresses|)
  {
    hide AddressAllowed, TouchSet, Accepted, IdsOfTouches;
    ids := [];
    for n := 0 to |o.addresses|
      invariant ids == IdsOf(v, o, n)
      invariant forall i :: 0 <= i < n ==> o.addresses[i] in v.entityAccess && AddressAllowed(v, o.addresses[i])
    {
      var addr := o.addresses[n];
      assert addr in o.addresses;
      if addr == v.op.sender || addr == v.entryPoint {
        ExemptAllowed(v, addr);
        continue;
      }
      var allowed, more := JudgeAddress(v, addr, o.touches[addr]);
      if !allowed {
        NotAccepted(v, addr);
        return false, ids;
      }
      ids := ids + more;
    }
    AcceptedInOrder(v, o);
    ok := true;
  }

  lemma NotAccepted(v: Validator, addr: Address)
    requires addr in v.entityAccess && !AddressAllowed(v, addr)
    ensures !Accepted(v)
  {
  }

  lemma AcceptedInOrder(v: Validator, o: Order)
    requires OrderOf(o, v)
    requires forall i :: 0 <= i < |o.addresses| ==>
               o.addresses[i] in v.entityAccess && AddressAllowed(v, o.addresses[i])
    ensures Accepted(v)
  {
    hide AddressAllowed;
  }

  lemma ExemptAllowed(v: Validator, addr: Address)
    requires addr in v.entityAccess && Exempt(v, addr)
    ensures AddressAllowed(v, addr)
  {
  }

  // ---------------------------------------------------------------------------------------------
  // Which mempool ids are collected
  // ---------------------------------------------------------------------------------------------

  /** Touching the slot is excepted, by the mempool `id` among others. */
  ghost predicate ExceptedBy(v: Validator, addr: Address, slot: Slot, id: string) {
    Judge(v, addr, slot).Excepted? && id in Judge(v, addr, slot).ids
  }

  lemma {:induction false} IdOfTouches(v: Validator, addr: Address, ts: seq<Touch>, id: string)
    ensures id in IdsOfTouches(v, addr, ts) <==> exists j :: 0 <= j < |ts| && ExceptedBy(v, addr, ts[j].slot, id)
  {
    hide Judge;
    if ts != [] {
      var n := |ts| - 1;
      IdOfTouches(v, addr, ts[..n], id);
      if j :| 0 <= j < |ts| && ExceptedBy(v, addr, ts[j].slot, id) {
        assert j < n ==> ts[..n][j] == ts[j];
      }
      if j :| 0 <= j < n && ExceptedBy(v, addr, ts[..n][j].slot, id) {
        assert ts[j] == ts[..n][j];
      }
    }
  }

  lemma IdOfAddress(v: Validator, o: Order, a: Address, id: string)
    requires OrderOf(o, v) && a in v.entityAccess
    ensures id in IdsOfAddress(v, o, a) <==>
            !Exempt(v, a) && exists slot :: Touches(v.entityAccess[a], slot) && ExceptedBy(v, a, slot, id)
  {
    hide ExceptedBy, Exempt;
    var ts := o.touches[a];
    IdOfTouches(v, a, ts, id);
    TouchesListed(v.entityAccess[a], ts);
    hide Touches, TouchSet;
  }

  lemma {:induction false} IdOfFirst(v: Validator, o: Order, n: nat, id: string)
    requires n <= |o.addresses|
    ensures id in IdsOf(v, o, n) <==> exists i :: 0 <= i < n && id in IdsOfAddress(v, o, o.addresses[i])
  {
    hide IdsOfAddress;
    if n > 0 {
      IdOfFirst(v, o, n - 1, id);
    }
  }

  /** For every order: a mempool id is collected if and only if it excepts some touched slot that no other rule covers. */
  lemma IdIsCollectedIff(v: Validator, o: Order, id: string)
    requires OrderOf(o, v)
    ensures id in IdsOf(v, o, |o.addresses|) <==>
            exists a, slot :: a in v.entityAccess && !Exempt(v, a) && Touches(v.entityAccess[a], slot)
                              && ExceptedBy(v, a, slot, id)
  {
    hide IdsOfAddress, Touches, ExceptedBy, Exempt, TouchSet, IdsOf;
    IdOfFirst(v, o, |o.addresses|, id);
    forall a | a in v.entityAccess
      ensures id in IdsOfAddress(v, o, a) <==>
              !Exempt(v, a) && exists slot :: Touches(v.entityAccess[a], slot) && ExceptedBy(v, a, slot, id)
      ensures a in o.addresses
    {
      IdOfAddress(v, o, a, id);
    }
    if i :| 0 <= i < |o.addresses| && id in IdsOfAddress(v, o, o.addresses[i]) {
      assert o.addresses[i] in o.addresses;
    }
    if a, slot :| a in v.entityAccess && !Exempt(v, a) && Touches(v.entityAccess[a], slot) && ExceptedBy(v, a, slot, id) {
      var i :| 0 <= i < |o.addresses| && o.addresses[i] == a;
    }
  }

  // ---------------------------------------------------------------------------------------------
  // The mempool ids do not depend on the order either
  // ---------------------------------------------------------------------------------------------

  ghost function Sum<T(!new)>(s: seq<T>, f: T -> nat): nat {
    if s == [] then 0 else Sum(s[..|s| - 1], f) + f(s[|s| - 1])
  }

  lemma {:induction false} SumRemove<T(!new)>(s: seq<T>, i: nat, f: T -> nat)
    requires i < |s|
    ensures Sum(s, f) == Sum(s[..i] + s[i + 1..], f) + f(s[i])
  {
    var n := |s| - 1;
    if i == n {
      assert s[..i] + s[i + 1..] == s[..n];
    } else {
      SumRemove(s[..n], i, f);
      var rest := s[..i] + s[i + 1..];
      assert rest[..n - 1] == s[..n][..i] + s[..n][i + 1..];
      assert rest[n - 1] == s[n];
    }
  }

  /** Two listings of one set give the same sum of functions that agree on it. */
  lemma {:induction false} SumOrderFree<T(!new)>(a: seq<T>, b: seq<T>, elements: set<T>, f: T -> nat, g: T -> nat)
    requires ListsOnce(a, elements) && ListsOnce(b, elements) && forall x :: x in elements ==> f(x) == g(x)
    ensures Sum(a, f) == Sum(b, g)
    decreases |a|
  {
    assert b != [] ==> b[0] in a;
    if a != [] {
      var n := |a| - 1;
      var x := a[n];
      assert x in elements;
      var j :| 0 <= j < |b| && b[j] == x;
      SumRemove(b, j, g);
      var b' := b[..j] + b[j + 1..];
      ListsWithout(a, n, elements);
      ListsWithout(b, j, elements);
      assert a[..n] + a[n + 1..] == a[..n];
      SumOrderFree(a[..n], b', elements - {x}, f, g);
    }
  }

  lemma ListsWithout<T(!new)>(s: seq<T>, i: nat, elements: set<T>)
    requires ListsOnce(s, elements) && i < |s|
    ensures ListsOnce(s[..i] + s[i + 1..], elements - {s[i]})
  {
    var r := s[..i] + s[i + 1..];
    assert forall k :: 0 <= k < |r| ==> r[k] == if k < i then s[k] else s[k + 1];
    forall x | x in elements && x != s[i]
      ensures x in r
    {
      var k :| 0 <= k < |s| && s[k] == x;
      assert r[if k < i then k else k - 1] == x;
    }
  }

  function Occurrences(ids: seq<string>, id: string): nat {
    multiset(ids)[id]
  }

  lemma {:induction false} OccurrencesOfTouches(v: Validator, addr: Address, ts: seq<Touch>, id: string)
    ensures Occurrences(IdsOfTouches(v, addr, ts), id) == Sum(ts, TouchWeight(v, addr, id))
  {
    hide IdsOfTouch;
    if ts != [] {
      var front, last := ts[..|ts| - 1], ts[|ts| - 1];
      OccurrencesOfTouches(v, addr, front, id);
      OccurrencesAdd(IdsOfTouches(v, addr, front), IdsOfTouch(v, addr, last), id);
    }
  }

  ghost function TouchWeight(v: Validator, addr: Address, id: string): Touch -> nat {
    (t: Touch) => Occurrences(IdsOfTouch(v, addr, t), id)
  }

  ghost function AddressWeight(v: Validator, o: Order, id: string): Address -> nat {
    (a: Address) => if Exempt(v, a) || a !in o.touches then 0 else Sum(o.touches[a], TouchWeight(v, a, id))
  }

  lemma {:induction false} OccurrencesOfIds(v: Validator, o: Order, n: nat, id: string)
    requires n <= |o.addresses|
    ensures Occurrences(IdsOf(v, o, n), id) == Sum(o.addresses[..n], AddressWeight(v, o, id))
  {
    hide IdsOfAddress, AddressWeight, IdsOf, Sum;
    if n == 0 {
      NoIds(v, o, id);
    } else {
      var front, a := o.addresses[..n - 1], o.addresses[n - 1];
      OccurrencesOfIds(v, o, n - 1, id);
      OccurrencesOfAddress(v, o, a, id);
      assert o.addresses[..n] == front + [a];
      SumMore(front, a, AddressWeight(v, o, id));
      OccurrencesAdd(IdsOf(v, o, n - 1), IdsOfAddress(v, o, a), id);
      IdsOfMore(v, o, n);
    }
  }

  lemma NoIds(v: Validator, o: Order, id: string)
    ensures Occurrences(IdsOf(v, o, 0), id) == Sum(o.addresses[..0], AddressWeight(v, o, id))
  {
  }

  lemma IdsOfMore(v: Validator, o: Order, n: nat)
    requires 0 < n <= |o.addresses|
    ensures IdsOf(v, o, n) == IdsOf(v, o, n - 1) + IdsOfAddress(v, o, o.addresses[n - 1])
  {
    hide IdsOfAddress;
  }

  lemma SumMore<T(!new)>(s: seq<T>, x: T, f: T -> nat)
    ensures Sum(s + [x], f) == Sum(s, f) + f(x)
  {
    assert (s + [x])[..|s|] == s;
  }

  lemma OccurrencesAdd(a: seq<string>, b: seq<string>, id: string)
    ensures Occurrences(a + b, id) == Occurrences(a, id) + Occurrences(b, id)
  {
  }

  /** One address contributes its weight. */
  lemma OccurrencesOfAddress(v: Validator, o: Order, a: Address, id: string)
    ensures Occurrences(IdsOfAddress(v, o, a), id) == AddressWeight(v, o, id)(a)
  {
    hide IdsOfTouches, Sum, Exempt;
    if a in o.touches {
      OccurrencesOfTouches(v, a, o.touches[a], id);
    }
  }

  lemma WeightOrderFree(v: Validator, o1: Order, o2: Order, a: Address, id: string)
    requires OrderOf(o1, v) && OrderOf(o2, v) && a in v.entityAccess
    ensures AddressWeight(v, o1, id)(a) == AddressWeight(v, o2, id)(a)
  {
    hide TouchSet, ListsOnce, Sum, Exempt, TouchWeight;
    var w := TouchWeight(v, a, id);
    SumOrderFree(o1.touches[a], o2.touches[a], TouchSet(v.entityAccess[a]), w, w);
  }

  lemma OccurrencesOrderFree(v: Validator, o1: Order, o2: Order, id: string)
    requires OrderOf(o1, v) && OrderOf(o2, v)
    ensures Occurrences(IdsOf(v, o1, |o1.addresses|), id) == Occurrences(IdsOf(v, o2, |o2.addresses|), id)
  {
    hide TouchSet, ListsOnce, Sum, AddressWeight, IdsOf, Occurrences;
    var f, g := AddressWeight(v, o1, id), AddressWeight(v, o2, id);
    OccurrencesOfIds(v, o1, |o1.addresses|, id);
    OccurrencesOfIds(v, o2, |o2.addresses|, id);
    assert o1.addresses[..|o1.addresses|] == o1.addresses && o2.addresses[..|o2.addresses|] == o2.addresses;
    forall a | a in v.entityAccess.Keys
      ensures f(a) == g(a)
    {
      WeightOrderFree(v, o1, o2, a, id);
    }
    SumOrderFree(o1.addresses, o2.addresses, v.entityAccess.Keys, f, g);
  }

  /** Two iteration orders of the same access maps collect the same mempool ids, each as often. */
  lemma IdsOrderFree(v: Validator, o1: Order, o2: Order)
    requires OrderOf(o1, v) && OrderOf(o2, v)
    ensures multiset(IdsOf(v, o1, |o1.addresses|)) == multiset(IdsOf(v, o2, |o2.addresses|))
  {
    hide OrderOf, IdsOf, Occurrences;
    forall id
      ensures Occurrences(IdsOf(v, o1, |o1.addresses|), id) == Occurrences(IdsOf(v, o2, |o2.addresses|), id)
    {
      OccurrencesOrderFree(v, o1, o2, id);
    }
    SameOccurrences(IdsOf(v, o1, |o1.addresses|), IdsOf(v, o2, |o2.addresses|));
  }

  lemma SameOccurrences(a: seq<string>, b: seq<string>)
    requires forall id :: Occurrences(a, id) == Occurrences(b, id)
    ensures multiset(a) == multiset(b)
  {
    forall id
      ensures multiset(a)[id] == multiset(b)[id]
    {
      assert Occurrences(a, id) == Occurrences(b, id);
    }
  }
}
