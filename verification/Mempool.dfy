/** The mempool: one set of pending operations kept in three views, namely the records of an embedded database, a
    set in arrival order for each EntryPoint, and a set in nonce order for each sender. The two sets share the pooled
    objects with everyone who was handed them, so that writing to such an object changes both sets and no record. */
module Mempool {
  import opened Wrappers
  import opened Text
  import opened UserOps

  // ---------------------------------------------------------------------------------------------
  // Database keys
  // ---------------------------------------------------------------------------------------------

  const KEY_PREFIX := "mempool"

  function KeyParts(ep: Address, sender: Address, nonce: nat, sum: Checksum): seq<string> {
    [KEY_PREFIX, AddressText(ep, sum), AddressText(sender, sum), Digits(nonce, 10)]
  }

  function UniqueKey(ep: Address, sender: Address, nonce: nat, sum: Checksum): string {
    Join(KeyParts(ep, sender, nonce, sum))
  }

  function KeyOf(ep: Address, op: UserOp, sum: Checksum): string {
    UniqueKey(ep, op.sender, op.nonce, sum)
  }

  /** `None` where the source would index past the end of the split key. */
  function EntryPointOfKey(key: string): Option<Address> {
    var parts := Split(key);
    if |parts| < 2 then None else Some(HexToAddress(parts[1]))
  }

  predicate IsPoolKey(key: string) {
    KEY_PREFIX <= key
  }

  lemma KeySplits(ep: Address, sender: Address, nonce: nat, sum: Checksum)
    ensures Split(UniqueKey(ep, sender, nonce, sum)) == KeyParts(ep, sender, nonce, sum)
    ensures IsPoolKey(UniqueKey(ep, sender, nonce, sum))
  {
    hide AddressText, Digits, Split;
    AddressReadsBack(ep, sum);
    AddressReadsBack(sender, sum);
    DigitsArePlain(nonce, 10);
    SplitUndoesJoin(KeyParts(ep, sender, nonce, sum));
  }

  /** The text of a key. */
  lemma KeyText(ep: Address, sender: Address, nonce: nat, sum: Checksum)
    ensures UniqueKey(ep, sender, nonce, sum) ==
            "mempool:" + AddressText(ep, sum) + ":" + AddressText(sender, sum) + ":" + Digits(nonce, 10)
  {
    hide AddressText, Digits;
    var a, b, c := AddressText(ep, sum), AddressText(sender, sum), Digits(nonce, 10);
    assert Join([c]) == c;
    assert Join([b, c]) == b + ":" + c by { assert [b, c][1..] == [c]; }
    assert Join([a, b, c]) == a + ":" + (b + ":" + c) by { assert [a, b, c][1..] == [b, c]; }
    assert KeyParts(ep, sender, nonce, sum)[1..] == [a, b, c];
    assert "mempool" + ":" == "mempool:";
  }

  /** A key is read as the pool's if it starts with the prefix, and its EntryPoint is the second of its parts, if it has
      so many. */
  lemma KeyReads(parts: seq<string>)
    requires parts != [] && forall i :: 0 <= i < |parts| ==> ':' !in parts[i]
    ensures EntryPointOfKey(Join(parts)) == if |parts| == 1 then None else Some(HexToAddress(parts[1]))
    ensures "mempool" <= Join(parts) <==> IsPoolKey(Join(parts))
  {
    hide Join, Split, HexToAddress;
    SplitUndoesJoin(parts);
  }

  /** The EntryPoint can be read back from a key. */
  lemma KeyHoldsEntryPoint(ep: Address, sender: Address, nonce: nat, sum: Checksum)
    ensures EntryPointOfKey(UniqueKey(ep, sender, nonce, sum)) == Some(ep)
  {
    hide AddressText, Split, UniqueKey, HexToAddress, Digits;
    KeySplits(ep, sender, nonce, sum);
    AddressReadsBack(ep, sum);
  }

  /** Keys are injective in EntryPoint, sender and nonce. */
  lemma KeyInjective(ep: Address, sender: Address, nonce: nat, ep': Address, sender': Address, nonce': nat, sum: Checksum)
    requires UniqueKey(ep, sender, nonce, sum) == UniqueKey(ep', sender', nonce', sum)
    ensures ep == ep' && sender == sender' && nonce == nonce'
  {
    hide AddressText, Split, UniqueKey, HexToAddress, Digits, ParseDigits;
    KeySplits(ep, sender, nonce, sum);
    KeySplits(ep', sender', nonce', sum);
    var p, p' := KeyParts(ep, sender, nonce, sum), KeyParts(ep', sender', nonce', sum);
    assert p[1] == p'[1] && p[2] == p'[2] && p[3] == p'[3];
    AddressReadsBack(ep, sum);
    AddressReadsBack(ep', sum);
    AddressReadsBack(sender, sum);
    AddressReadsBack(sender', sum);
    DigitsReadBack(nonce, 10);
    DigitsReadBack(nonce', 10);
  }

  // ---------------------------------------------------------------------------------------------
  // The in-memory queues
  // ---------------------------------------------------------------------------------------------

  datatype Node = Node(score: int, op: UserOp)

  /** Nodes by key, ranked by score and then by key. */
  type SortedSet = map<string, Node>

  datatype EntryPointSet = EntryPointSet(all: SortedSet, senders: map<Address, SortedSet>)

  const NO_OPS := EntryPointSet(map[], map[])

  type Queues = map<Address, EntryPointSet>

  /** The low 64 bits of a number, read as a signed integer. */
  function Int64(n: nat): int {
    var low := n % 0x1_0000_0000_0000_0000;
    if low < 0x8000_0000_0000_0000 then low else low - 0x1_0000_0000_0000_0000
  }

  /** It is the number of 64-bit signed range that differs from `n` by a multiple of 2^64. */
  lemma Int64Is(n: nat)
    ensures -0x8000_0000_0000_0000 <= Int64(n) < 0x8000_0000_0000_0000
    ensures (n - Int64(n)) % 0x1_0000_0000_0000_0000 == 0
    ensures n < 0x8000_0000_0000_0000 ==> Int64(n) == n
  {
  }

  function SetOf(q: Queues, ep: Address): EntryPointSet {
    if ep in q then q[ep] else NO_OPS
  }

  function SenderSet(s: EntryPointSet, sender: Address): SortedSet {
    if sender in s.senders then s.senders[sender] else map[]
  }

  function WithNode(s: EntryPointSet, key: string, score: int, op: UserOp): EntryPointSet {
    EntryPointSet(
      s.all[key := Node(score, op)],
      s.senders[op.sender := SenderSet(s, op.sender)[key := Node(Int64(op.nonce), op)]])
  }

  function WithOp(s: EntryPointSet, key: string, op: UserOp): EntryPointSet {
    WithNode(s, key, |s.all|, op)
  }

  /** What both sets show once the pooled object under `key` is overwritten: its place in them stays. */
  function Overwritten(s: EntryPointSet, key: string, op: UserOp): EntryPointSet {
    if key in s.all then WithNode(s, key, s.all[key].score, op) else s
  }

  function WithoutKey(s: EntryPointSet, key: string, sender: Address): EntryPointSet {
    EntryPointSet(s.all - {key}, s.senders[sender := SenderSet(s, sender) - {key}])
  }

  function WithoutOps(s: EntryPointSet, ep: Address, ops: seq<UserOp>, sum: Checksum): EntryPointSet
    decreases |ops|
  {
    if ops == [] then s
    else WithoutOps(WithoutKey(s, KeyOf(ep, ops[0], sum), ops[0].sender), ep, ops[1..], sum)
  }

  // ---------------------------------------------------------------------------------------------
  // The pool
  // ---------------------------------------------------------------------------------------------

  /** A database record: an operation's JSON object, or something another module stored. */
  datatype Record = OpRecord(data: JsonObject) | Foreign

  type Database = map<string, Record>

  datatype Pool = Pool(db: Database, queues: Queues)

  /** What a client or the bundler does to the pool. `stored` says whether the database transaction succeeded. A
      restart reads the database in the given order of its keys. `Overwrite` is someone who was handed the pooled object
      of this sender and nonce writing the other fields of `op` into it. */
  datatype Action =
    | Add(ep: Address, op: UserOp, stored: bool)
    | Remove(ep: Address, ops: seq<UserOp>, stored: bool)
    | Pending(ep: Address, sender: Address)
    | Clear(stored: bool)
    | Restart(order: seq<string>)
    | Overwrite(ep: Address, op: UserOp)

  function KeysOf(ep: Address, ops: seq<UserOp>, sum: Checksum): set<string> {
    set i | 0 <= i < |ops| :: KeyOf(ep, ops[i], sum)
  }

  function AddOp(p: Pool, ep: Address, op: UserOp, sum: Checksum): Pool {
    var key := KeyOf(ep, op, sum);
    Pool(p.db[key := OpRecord(ToMap(op, sum))], p.queues[ep := WithOp(SetOf(p.queues, ep), key, op)])
  }

  function RemoveOps(p: Pool, ep: Address, ops: seq<UserOp>, sum: Checksum): Pool {
    Pool(p.db - KeysOf(ep, ops, sum), p.queues[ep := WithoutOps(SetOf(p.queues, ep), ep, ops, sum)])
  }

  /** Looking up a sender's operations creates its empty sets. */
  function Touch(p: Pool, ep: Address, sender: Address): Pool {
    var s := SetOf(p.queues, ep);
    p.(queues := p.queues[ep := s.(senders := s.senders[sender := SenderSet(s, sender)])])
  }

  function OverwriteOp(p: Pool, ep: Address, op: UserOp, sum: Checksum): Pool {
    p.(queues := p.queues[ep := Overwritten(SetOf(p.queues, ep), KeyOf(ep, op, sum), op)])
  }

  /** The queues rebuilt from the records under `keys`, in order; `None` when a record does not decode. */
  function Load(db: Database, keys: seq<string>, sum: Checksum): Option<Queues> {
    if keys == [] then Some(map[]) else
    var q :- Load(db, keys[..|keys| - 1], sum);
    var key := keys[|keys| - 1];
    if key !in db || db[key].Foreign? then None else
    var ep :- EntryPointOfKey(key);
    match New(db[key].data)
    case Err(_) => None
    case Ok(op) => Some(q[ep := WithOp(SetOf(q, ep), KeyOf(ep, op, sum), op)])
  }

  ghost predicate Enumerates(order: seq<string>, keys: set<string>) {
    && (forall k :: k in keys <==> k in order)
    && (forall i, j :: 0 <= i < j < |order| ==> order[i] != order[j])
  }

  function PoolKeys(db: Database): set<string> {
    set k | k in db && IsPoolKey(k)
  }

  ghost predicate Enabled(p: Pool, a: Action) {
    match a
    case Add(_, op, _) => op.Valid()
    case Restart(order) => Enumerates(order, PoolKeys(p.db))
    case _ => true
  }

  function Step(p: Pool, a: Action, sum: Checksum): Option<Pool> {
    match a
    case Add(ep, op, stored) => Some(if stored then AddOp(p, ep, op, sum) else p)
    case Remove(ep, ops, stored) => Some(if stored then RemoveOps(p, ep, ops, sum) else p)
    case Pending(ep, sender) => Some(Touch(p, ep, sender))
    case Clear(stored) => Some(if stored then Pool(map[], map[]) else p)
    case Restart(order) =>
      var q :- Load(p.db, order, sum);
      Some(p.(queues := q))
    case Overwrite(ep, op) => Some(OverwriteOp(p, ep, op, sum))
  }

  // ---------------------------------------------------------------------------------------------
  // What the views show
  // ---------------------------------------------------------------------------------------------

  /** The pool as one map from key to operation. */
  type Contents = map<string, UserOp>

  /** The operations that the database records and those that the sets hold. */
  datatype Held = Held(disk: Contents, live: Contents)

  const NOTHING := Held(map[], map[])

  function StepHeld(c: Held, a: Action, sum: Checksum): Held {
    match a
    case Add(ep, op, stored) =>
      if stored then Held(c.disk[KeyOf(ep, op, sum) := op], c.live[KeyOf(ep, op, sum) := op]) else c
    case Remove(ep, ops, stored) =>
      if stored then Held(c.disk - KeysOf(ep, ops, sum), c.live - KeysOf(ep, ops, sum)) else c
    case Pending(_, _) => c
    case Clear(stored) => if stored then NOTHING else c
    case Restart(_) => Held(c.disk, c.disk)
    case Overwrite(ep, op) => c.(live := Over(c.live, KeyOf(ep, op, sum), op))
  }

  /** An operation written over the one under its key, if there is one. */
  function Over(c: Contents, k: string, op: UserOp): Contents {
    if k in c then c[k := op] else c
  }

  /** Every operation sits under its own key. */
  ghost predicate Keyed(c: Contents, sum: Checksum) {
    forall k :: k in c ==>
      c[k].Valid() && EntryPointOfKey(k).Some? && k == KeyOf(EntryPointOfKey(k).value, c[k], sum)
  }

  ghost predicate DbView(db: Database, c: Contents, sum: Checksum) {
    && (forall k :: IsPoolKey(k) ==> (k in db <==> k in c))
    && (forall k :: k in c ==> k in db && db[k] == OpRecord(ToMap(c[k], sum)))
  }

  /** The arrival set of an EntryPoint holds exactly its operations. */
  ghost predicate AllView(s: EntryPointSet, ep: Address, c: Contents) {
    && (forall k :: k in s.all <==> k in c && EntryPointOfKey(k) == Some(ep))
    && (forall k :: k in s.all ==> k in c && s.all[k].op == c[k])
  }

  /** The set of a sender holds exactly its part of the arrival set, ranked by nonce. */
  ghost predicate SenderView(s: EntryPointSet) {
    && (forall k :: k in s.all ==> s.all[k].op.sender in s.senders)
    && (forall a :: a in s.senders ==> SenderHolds(s.senders[a], s.all, a))
  }

  ghost predicate SenderHolds(mine: SortedSet, all: SortedSet, a: Address) {
    && (forall k :: k in mine <==> k in all && all[k].op.sender == a)
    && (forall k :: k in mine && k in all ==> mine[k] == Node(Int64(all[k].op.nonce), all[k].op))
  }

  ghost predicate QueueView(q: Queues, c: Contents) {
    && (forall k :: k in c ==> EntryPointOfKey(k).Some? && EntryPointOfKey(k).value in q)
    && (forall ep :: ep in q ==> AllView(q[ep], ep, c) && SenderView(q[ep]))
  }

  /** The database and the sets show operations under the same keys. */
  ghost predicate Shows(p: Pool, c: Held, sum: Checksum) {
    && c.disk.Keys == c.live.Keys
    && Keyed(c.disk, sum) && DbView(p.db, c.disk, sum)
    && Keyed(c.live, sum) && QueueView(p.queues, c.live)
  }

  lemma KeyOfOp(ep: Address, op: UserOp, sum: Checksum)
    ensures EntryPointOfKey(KeyOf(ep, op, sum)) == Some(ep) && IsPoolKey(KeyOf(ep, op, sum))
  {
    hide EntryPointOfKey, IsPoolKey;
    KeyHoldsEntryPoint(ep, op.sender, op.nonce, sum);
    KeySplits(ep, op.sender, op.nonce, sum);
  }

  /** An operation already under the key of another has the same sender. */
  lemma SameKeySameSender(c: Contents, ep: Address, op: UserOp, sum: Checksum)
    requires Keyed(c, sum)
    ensures var k := KeyOf(ep, op, sum); k in c ==> c[k].sender == op.sender
  {
    hide EntryPointOfKey, UniqueKey;
    KeyOfOp(ep, op, sum);
    var k := KeyOf(ep, op, sum);
    if k in c {
      KeyInjective(ep, op.sender, op.nonce, ep, c[k].sender, c[k].nonce, sum);
    }
  }

  lemma AllAdd(s: EntryPointSet, ep: Address, k: string, score: int, op: UserOp, c: Contents)
    requires AllView(s, ep, c) && EntryPointOfKey(k) == Some(ep)
    ensures AllView(WithNode(s, k, score, op), ep, c[k := op])
  {
    hide EntryPointOfKey;
  }

  lemma HoldsAdd(mine: SortedSet, all: SortedSet, k: string, op: UserOp, score: int, a: Address)
    requires SenderHolds(mine, all, a) && (k in all ==> all[k].op.sender == op.sender)
    ensures SenderHolds(if a == op.sender then mine[k := Node(Int64(op.nonce), op)] else mine,
                        all[k := Node(score, op)], a)
  {
    hide Int64;
  }

  lemma HoldsNone(s: EntryPointSet, a: Address)
    requires SenderView(s)
    ensures SenderHolds(SenderSet(s, a), s.all, a)
  {
    hide Int64;
    if a !in s.senders {
      assert forall j :: j in s.all ==> s.all[j].op.sender != a;
    }
  }

  lemma SenderAdd(s: EntryPointSet, k: string, score: int, op: UserOp)
    requires SenderView(s) && (k in s.all ==> s.all[k].op.sender == op.sender)
    ensures SenderView(WithNode(s, k, score, op))
  {
    hide SenderHolds;
    var t := WithNode(s, k, score, op);
    forall a | a in t.senders
      ensures SenderHolds(t.senders[a], t.all, a)
    {
      HoldsNone(s, a);
      HoldsAdd(SenderSet(s, a), s.all, k, op, score, a);
    }
  }

  lemma SetAdd(s: EntryPointSet, ep: Address, score: int, op: UserOp, c: Contents, sum: Checksum)
    requires Keyed(c, sum) && AllView(s, ep, c) && SenderView(s)
    ensures var k := KeyOf(ep, op, sum); var t := WithNode(s, k, score, op);
      AllView(t, ep, c[k := op]) && SenderView(t)
  {
    hide EntryPointOfKey, UniqueKey, Keyed, SenderHolds;
    KeyOfOp(ep, op, sum);
    SameKeySameSender(c, ep, op, sum);
    var k := KeyOf(ep, op, sum);
    assert k in s.all ==> s.all[k].op.sender == op.sender;
    AllAdd(s, ep, k, score, op, c);
    hide AllView, SenderView;
    SenderAdd(s, k, score, op);
  }

  lemma AllOther(s: EntryPointSet, e: Address, ep: Address, k: string, op: UserOp, c: Contents)
    requires AllView(s, e, c) && e != ep && EntryPointOfKey(k) == Some(ep)
    ensures AllView(s, e, c[k := op])
  {
    hide EntryPointOfKey;
  }

  lemma QueuePut(q: Queues, ep: Address, score: int, op: UserOp, c: Contents, sum: Checksum)
    requires Keyed(c, sum) && QueueView(q, c)
    ensures var k := KeyOf(ep, op, sum);
      QueueView(q[ep := WithNode(SetOf(q, ep), k, score, op)], c[k := op])
  {
    hide EntryPointOfKey, UniqueKey, SenderView, WithNode, Keyed;
    KeyOfOp(ep, op, sum);
    EmptySenders();
    SetAdd(SetOf(q, ep), ep, score, op, c, sum);
    hide AllView;
    var k := KeyOf(ep, op, sum);
    var q' := q[ep := WithNode(SetOf(q, ep), k, score, op)];
    forall e | e in q'
      ensures AllView(q'[e], e, c[k := op]) && SenderView(q'[e])
    {
      if e != ep {
        AllOther(q[e], e, ep, k, op, c);
      }
    }
  }

  lemma QueueAdd(q: Queues, ep: Address, op: UserOp, c: Contents, sum: Checksum)
    requires Keyed(c, sum) && QueueView(q, c)
    ensures var k := KeyOf(ep, op, sum);
      QueueView(q[ep := WithOp(SetOf(q, ep), k, op)], c[k := op])
  {
    hide QueueView, WithNode, Keyed, KeyOf;
    QueuePut(q, ep, |SetOf(q, ep).all|, op, c, sum);
  }

  lemma QueueSame(q: Queues, ep: Address, c: Contents)
    requires QueueView(q, c)
    ensures QueueView(q[ep := SetOf(q, ep)], c)
  {
    hide EntryPointOfKey, SenderView;
    EmptySenders();
    if ep in q {
      assert q[ep := SetOf(q, ep)] == q;
    }
  }

  lemma EmptySenders()
    ensures SenderView(NO_OPS)
  {
  }

  lemma PutKeyed(c: Contents, ep: Address, op: UserOp, sum: Checksum)
    requires Keyed(c, sum) && op.Valid()
    ensures Keyed(c[KeyOf(ep, op, sum) := op], sum)
  {
    hide EntryPointOfKey, UniqueKey;
    KeyOfOp(ep, op, sum);
  }

  lemma AddShows(p: Pool, ep: Address, op: UserOp, c: Held, sum: Checksum)
    requires Shows(p, c, sum) && op.Valid()
    ensures var k := KeyOf(ep, op, sum); Shows(AddOp(p, ep, op, sum), Held(c.disk[k := op], c.live[k := op]), sum)
  {
    hide EntryPointOfKey, UniqueKey, QueueView, WithOp, IsPoolKey, ToMap, Keyed;
    KeyOfOp(ep, op, sum);
    PutKeyed(c.disk, ep, op, sum);
    PutKeyed(c.live, ep, op, sum);
    QueueAdd(p.queues, ep, op, c.live, sum);
  }

  lemma OverwriteKeyed(c: Contents, ep: Address, op: UserOp, sum: Checksum)
    requires Keyed(c, sum)
    ensures Keyed(Over(c, KeyOf(ep, op, sum), op), sum)
  {
    hide KeyOf, Keyed;
    SameKeySameSender(c, ep, op, sum);
    if KeyOf(ep, op, sum) in c {
      PooledIsValid(c, KeyOf(ep, op, sum), sum);
      PutKeyed(c, ep, op, sum);
    }
  }

  lemma PooledIsValid(c: Contents, k: string, sum: Checksum)
    requires Keyed(c, sum) && k in c
    ensures c[k].Valid()
  {
  }

  /** Overwriting a pooled object changes what the sets show and leaves the records alone. */
  lemma OverwriteShows(p: Pool, ep: Address, op: UserOp, c: Held, sum: Checksum)
    requires Shows(p, c, sum)
    ensures Shows(OverwriteOp(p, ep, op, sum), c.(live := Over(c.live, KeyOf(ep, op, sum), op)), sum)
  {
    hide KeyOf, DbView, Keyed, QueueView, EntryPointOfKey, WithNode;
    var k, s := KeyOf(ep, op, sum), SetOf(p.queues, ep);
    OverwriteKeyed(c.live, ep, op, sum);
    KeyOfOp(ep, op, sum);
    SetShows(p.queues, c.live, ep);
    if k in s.all {
      QueuePut(p.queues, ep, s.all[k].score, op, c.live, sum);
    } else {
      QueueSame(p.queues, ep, c.live);
    }
  }

  lemma AllRemove(s: EntryPointSet, ep: Address, k: string, sender: Address, c: Contents, sum: Checksum)
    requires AllView(s, ep, c) && Keyed(c, sum)
    ensures AllView(WithoutKey(s, k, sender), ep, c - {k}) && Keyed(c - {k}, sum)
  {
    hide EntryPointOfKey, UniqueKey;
  }

  lemma HoldsRemove(mine: SortedSet, all: SortedSet, k: string, sender: Address, a: Address)
    requires SenderHolds(mine, all, a) && (k in all ==> all[k].op.sender == sender)
    ensures SenderHolds(if a == sender then mine - {k} else mine, all - {k}, a)
  {
    hide Int64;
  }

  lemma SenderRemove(s: EntryPointSet, k: string, sender: Address)
    requires SenderView(s) && (k in s.all ==> s.all[k].op.sender == sender)
    ensures SenderView(WithoutKey(s, k, sender))
  {
    hide SenderHolds;
    var t := WithoutKey(s, k, sender);
    forall a | a in t.senders
      ensures SenderHolds(t.senders[a], t.all, a)
    {
      HoldsNone(s, a);
      HoldsRemove(SenderSet(s, a), s.all, k, sender, a);
    }
  }

  lemma SetRemove(s: EntryPointSet, ep: Address, op: UserOp, c: Contents, sum: Checksum)
    requires Keyed(c, sum) && AllView(s, ep, c) && SenderView(s)
    ensures var k := KeyOf(ep, op, sum); var t := WithoutKey(s, k, op.sender);
      Keyed(c - {k}, sum) && AllView(t, ep, c - {k}) && SenderView(t)
  {
    hide EntryPointOfKey, UniqueKey, Keyed, SenderHolds;
    SameKeySameSender(c, ep, op, sum);
    var k := KeyOf(ep, op, sum);
    assert k in s.all ==> s.all[k].op.sender == op.sender;
    AllRemove(s, ep, k, op.sender, c, sum);
    hide AllView, SenderView;
    SenderRemove(s, k, op.sender);
  }

  lemma {:induction false} SetRemoveAll(s: EntryPointSet, ep: Address, ops: seq<UserOp>, c: Contents, sum: Checksum)
    requires Keyed(c, sum) && AllView(s, ep, c) && SenderView(s)
    ensures var d := c - KeysOf(ep, ops, sum);
      Keyed(d, sum) && AllView(WithoutOps(s, ep, ops, sum), ep, d) && SenderView(WithoutOps(s, ep, ops, sum))
    decreases |ops|
  {
    hide EntryPointOfKey, UniqueKey, SenderView, AllView, Keyed, WithoutKey;
    if ops == [] {
      assert c - KeysOf(ep, ops, sum) == c;
    } else {
      var k := KeyOf(ep, ops[0], sum);
      SetRemove(s, ep, ops[0], c, sum);
      SetRemoveAll(WithoutKey(s, k, ops[0].sender), ep, ops[1..], c - {k}, sum);
      KeysOfTail(ep, ops, sum);
      assert c - {k} - KeysOf(ep, ops[1..], sum) == c - KeysOf(ep, ops, sum);
    }
  }

  lemma KeysOfTail(ep: Address, ops: seq<UserOp>, sum: Checksum)
    requires ops != []
    ensures KeysOf(ep, ops, sum) == {KeyOf(ep, ops[0], sum)} + KeysOf(ep, ops[1..], sum)
  {
    hide UniqueKey;
    var tail := ops[1..];
    forall k | k in KeysOf(ep, ops, sum)
      ensures k in {KeyOf(ep, ops[0], sum)} + KeysOf(ep, tail, sum)
    {
      var i :| 0 <= i < |ops| && k == KeyOf(ep, ops[i], sum);
      assert i > 0 ==> tail[i - 1] == ops[i];
    }
    forall k | k in KeysOf(ep, tail, sum)
      ensures k in KeysOf(ep, ops, sum)
    {
      var i :| 0 <= i < |tail| && k == KeyOf(ep, tail[i], sum);
      assert ops[i + 1] == tail[i];
    }
    assert KeyOf(ep, ops[0], sum) in KeysOf(ep, ops, sum);
  }

  lemma AllUntouched(s: EntryPointSet, e: Address, ep: Address, c: Contents, keys: set<string>)
    requires AllView(s, e, c) && e != ep && forall k :: k in keys ==> EntryPointOfKey(k) == Some(ep)
    ensures AllView(s, e, c - keys)
  {
    hide EntryPointOfKey;
  }

  lemma KeysShareEntryPoint(ep: Address, ops: seq<UserOp>, sum: Checksum)
    ensures forall k :: k in KeysOf(ep, ops, sum) ==> EntryPointOfKey(k) == Some(ep)
  {
    hide EntryPointOfKey, UniqueKey;
    forall k | k in KeysOf(ep, ops, sum)
      ensures EntryPointOfKey(k) == Some(ep)
    {
      var i :| 0 <= i < |ops| && k == KeyOf(ep, ops[i], sum);
      KeyOfOp(ep, ops[i], sum);
    }
  }

  lemma QueueRemove(q: Queues, ep: Address, ops: seq<UserOp>, c: Contents, sum: Checksum)
    requires Keyed(c, sum) && QueueView(q, c)
    ensures QueueView(q[ep := WithoutOps(SetOf(q, ep), ep, ops, sum)], c - KeysOf(ep, ops, sum))
  {
    hide EntryPointOfKey, SenderView, WithoutOps, KeysOf, Keyed;
    var keys := KeysOf(ep, ops, sum);
    EmptySenders();
    SetRemoveAll(SetOf(q, ep), ep, ops, c, sum);
    KeysShareEntryPoint(ep, ops, sum);
    var q' := q[ep := WithoutOps(SetOf(q, ep), ep, ops, sum)];
    forall e | e in q'
      ensures AllView(q'[e], e, c - keys) && SenderView(q'[e])
    {
      if e != ep {
        AllUntouched(q[e], e, ep, c, keys);
      }
    }
    hide AllView;
  }

  lemma RemoveKeyed(c: Contents, keys: set<string>, sum: Checksum)
    requires Keyed(c, sum)
    ensures Keyed(c - keys, sum)
  {
    hide EntryPointOfKey, UniqueKey;
  }

  lemma RemoveShows(p: Pool, ep: Address, ops: seq<UserOp>, c: Held, sum: Checksum)
    requires Shows(p, c, sum)
    ensures var keys := KeysOf(ep, ops, sum); Shows(RemoveOps(p, ep, ops, sum), Held(c.disk - keys, c.live - keys), sum)
  {
    hide EntryPointOfKey, UniqueKey, IsPoolKey, ToMap, QueueView, KeysOf, WithoutOps, Keyed;
    RemoveKeyed(c.disk, KeysOf(ep, ops, sum), sum);
    RemoveKeyed(c.live, KeysOf(ep, ops, sum), sum);
    QueueRemove(p.queues, ep, ops, c.live, sum);
  }

  lemma SenderTouch(s: EntryPointSet, sender: Address)
    requires SenderView(s)
    ensures SenderView(s.(senders := s.senders[sender := SenderSet(s, sender)]))
  {
    hide SenderHolds;
    HoldsNone(s, sender);
  }

  lemma AllTouch(s: EntryPointSet, ep: Address, senders: map<Address, SortedSet>, c: Contents)
    requires AllView(s, ep, c)
    ensures AllView(s.(senders := senders), ep, c)
  {
  }

  lemma QueueTouch(q: Queues, ep: Address, sender: Address, c: Contents)
    requires QueueView(q, c)
    ensures var s := SetOf(q, ep); QueueView(q[ep := s.(senders := s.senders[sender := SenderSet(s, sender)])], c)
  {
    hide EntryPointOfKey, SenderView;
    EmptySenders();
    var s := SetOf(q, ep);
    SenderTouch(s, sender);
    assert AllView(s, ep, c);
    hide AllView;
    AllTouch(s, ep, s.senders[sender := SenderSet(s, sender)], c);
  }

  lemma TouchShows(p: Pool, ep: Address, sender: Address, c: Held, sum: Checksum)
    requires Shows(p, c, sum)
    ensures Shows(Touch(p, ep, sender), c, sum)
  {
    hide Keyed, DbView, QueueView;
    QueueTouch(p.queues, ep, sender, c.live);
  }

  function Restrict(c: Contents, keys: seq<string>): Contents {
    map k | k in c && k in keys :: c[k]
  }

  lemma RestrictKeyed(c: Contents, keys: seq<string>, sum: Checksum)
    requires Keyed(c, sum)
    ensures Keyed(Restrict(c, keys), sum)
  {
    hide EntryPointOfKey, UniqueKey;
  }

  /** A record of the pool decodes to its operation, and goes back under its key. */
  lemma RecordReadsBack(db: Database, key: string, c: Contents, sum: Checksum)
    requires Keyed(c, sum) && DbView(db, c, sum) && key in c
    ensures key in db && db[key].OpRecord? && New(db[key].data) == Ok(c[key])
    ensures EntryPointOfKey(key).Some? && KeyOf(EntryPointOfKey(key).value, c[key], sum) == key
  {
    hide EntryPointOfKey, UniqueKey, ToMap, New;
    NewUndoesToMap(c[key], sum);
  }

  lemma LoadMore(db: Database, keys: seq<string>, op: UserOp, sum: Checksum)
    requires keys != []
    requires var key := keys[|keys| - 1];
      key in db && db[key].OpRecord? && New(db[key].data) == Ok(op) && EntryPointOfKey(key).Some?
    requires Load(db, keys[..|keys| - 1], sum).Some?
    ensures var q := Load(db, keys[..|keys| - 1], sum).value; var ep := EntryPointOfKey(keys[|keys| - 1]).value;
      Load(db, keys, sum) == Some(q[ep := WithOp(SetOf(q, ep), KeyOf(ep, op, sum), op)])
  {
    hide EntryPointOfKey, KeyOf, New, WithOp;
  }

  lemma RestrictMore(c: Contents, keys: seq<string>)
    requires keys != [] && keys[|keys| - 1] in c
    ensures var key := keys[|keys| - 1]; Restrict(c, keys) == Restrict(c, keys[..|keys| - 1])[key := c[key]]
  {
    assert keys == keys[..|keys| - 1] + [keys[|keys| - 1]];
  }

  lemma {:induction false} LoadShows(db: Database, keys: seq<string>, c: Contents, sum: Checksum)
    requires Keyed(c, sum) && DbView(db, c, sum) && forall k :: k in keys ==> k in c
    ensures Load(db, keys, sum).Some?
    ensures QueueView(Load(db, keys, sum).value, Restrict(c, keys))
    decreases |keys|
  {
    hide EntryPointOfKey, KeyOf, New, WithOp, Keyed, DbView;
    if keys == [] {
      assert Restrict(c, keys) == map[];
    } else {
      hide QueueView, Load, Restrict;
      var front, key := keys[..|keys| - 1], keys[|keys| - 1];
      LoadShows(db, front, c, sum);
      RecordReadsBack(db, key, c, sum);
      RestrictKeyed(c, front, sum);
      QueueAdd(Load(db, front, sum).value, EntryPointOfKey(key).value, c[key], Restrict(c, front), sum);
      LoadMore(db, keys, c[key], sum);
      RestrictMore(c, keys);
    }
  }

  /** Each action acts on the recorded and the held operations as its name says, and keeps their keys the same; a restart
      always succeeds, and what it holds afterwards is what was recorded. */
  lemma StepShows(p: Pool, a: Action, c: Held, sum: Checksum)
    requires Shows(p, c, sum) && Enabled(p, a)
    ensures Step(p, a, sum).Some?
    ensures Shows(Step(p, a, sum).value, StepHeld(c, a, sum), sum)
  {
    hide Load, Keyed, QueueView, AddOp, RemoveOps, Touch, OverwriteOp, KeyOf, KeysOf, ToMap;
    match a
    case Add(ep, op, stored) => AddShows(p, ep, op, c, sum);
    case Remove(ep, ops, stored) => RemoveShows(p, ep, ops, c, sum);
    case Pending(ep, sender) => TouchShows(p, ep, sender, c, sum);
    case Clear(stored) => EmptyShows(sum);
    case Restart(order) =>
      PoolKeysAreContents(p.db, c.disk, sum);
      LoadShows(p.db, order, c.disk, sum);
      assert Restrict(c.disk, order) == c.disk;
    case Overwrite(ep, op) => OverwriteShows(p, ep, op, c, sum);
  }

  lemma EmptyShows(sum: Checksum)
    ensures Shows(Pool(map[], map[]), NOTHING, sum)
  {
  }

  lemma PoolKeysAreContents(db: Database, c: Contents, sum: Checksum)
    requires Keyed(c, sum) && DbView(db, c, sum)
    ensures PoolKeys(db) == c.Keys
  {
    hide EntryPointOfKey, UniqueKey, IsPoolKey, ToMap;
    forall k | k in c
      ensures IsPoolKey(k)
    {
      KeyOfOp(EntryPointOfKey(k).value, c[k], sum);
    }
  }

  // ---------------------------------------------------------------------------------------------
  // Whole runs
  // ---------------------------------------------------------------------------------------------

  function Run(p: Pool, acts: seq<Action>, sum: Checksum): Option<Pool>
    decreases |acts|
  {
    if acts == [] then Some(p) else
    var q :- Step(p, acts[0], sum);
    Run(q, acts[1..], sum)
  }

  ghost predicate Legal(p: Pool, acts: seq<Action>, sum: Checksum)
    decreases |acts|
  {
    acts != [] ==>
      && Enabled(p, acts[0])
      && (Step(p, acts[0], sum).Some? ==> Legal(Step(p, acts[0], sum).value, acts[1..], sum))
  }

  function RunHeld(c: Held, acts: seq<Action>, sum: Checksum): Held
    decreases |acts|
  {
    if acts == [] then c else RunHeld(StepHeld(c, acts[0], sum), acts[1..], sum)
  }

  /** After every run of adds, replacements, removals, lookups, clears, restarts and writes to pooled objects, database and
      sets show what the same run makes of the operations recorded and held at first. */
  lemma {:induction false} RunShows(p: Pool, acts: seq<Action>, c: Held, sum: Checksum)
    requires Shows(p, c, sum) && Legal(p, acts, sum)
    ensures Run(p, acts, sum).Some?
    ensures Shows(Run(p, acts, sum).value, RunHeld(c, acts, sum), sum)
    decreases |acts|
  {
    hide Shows, Step, StepHeld, Enabled;
    if acts != [] {
      StepShows(p, acts[0], c, sum);
      RunShows(Step(p, acts[0], sum).value, acts[1..], StepHeld(c, acts[0], sum), sum);
    }
  }

  /** What the views have in common: the sets of different senders are disjoint, together they are the arrival set,
      and that is the set of database keys naming the EntryPoint. */
  lemma ViewsAgree(p: Pool, c: Held, ep: Address, sum: Checksum)
    requires Shows(p, c, sum) && ep in p.queues
    ensures var s := p.queues[ep];
      && (forall a, b :: a in s.senders && b in s.senders && a != b ==> s.senders[a].Keys !! s.senders[b].Keys)
      && (forall k :: k in s.all <==> exists a :: a in s.senders && k in s.senders[a])
      && s.all.Keys == (set k | k in PoolKeys(p.db) && EntryPointOfKey(k) == Some(ep))
      && (forall k :: k in s.all ==> k == KeyOf(ep, s.all[k].op, sum))
  {
    hide EntryPointOfKey, UniqueKey, ToMap, Int64;
    var s := p.queues[ep];
    assert AllView(s, ep, c.live) && SenderView(s);
    PoolKeysAreContents(p.db, c.disk, sum);
    forall k | k in s.all
      ensures k in s.senders[s.all[k].op.sender]
    {
      assert SenderHolds(s.senders[s.all[k].op.sender], s.all, s.all[k].op.sender);
    }
  }

  // ---------------------------------------------------------------------------------------------
  // When records and pooled objects agree
  // ---------------------------------------------------------------------------------------------

  /** The record under a key reads back as the operation that the arrival set of its EntryPoint holds. */
  ghost predicate ReadsBack(p: Pool, k: string) {
    && k in p.db && p.db[k].OpRecord? && EntryPointOfKey(k).Some?
    && var s := SetOf(p.queues, EntryPointOfKey(k).value); k in s.all && New(p.db[k].data) == Ok(s.all[k].op)
  }

  lemma LiveNode(q: Queues, c: Contents, k: string)
    requires QueueView(q, c) && k in c
    ensures EntryPointOfKey(k).Some?
    ensures var s := SetOf(q, EntryPointOfKey(k).value); k in s.all && s.all[k].op == c[k]
  {
    hide EntryPointOfKey, SenderView;
    assert AllView(q[EntryPointOfKey(k).value], EntryPointOfKey(k).value, c);
  }

  /** A pooled operation reads back from its record if and only if it is what was recorded. */
  lemma ReadsBackIff(p: Pool, c: Held, k: string, sum: Checksum)
    requires Shows(p, c, sum) && k in c.disk
    ensures ReadsBack(p, k) <==> c.live[k] == c.disk[k]
  {
    hide EntryPointOfKey, Keyed, DbView, QueueView, New;
    assert k in c.live;
    RecordReadsBack(p.db, k, c.disk, sum);
    LiveNode(p.queues, c.live, k);
  }

  /** What was written last into the object under `k` since it was added or reloaded. */
  function StepWritten(w: Option<UserOp>, a: Action, k: string, sum: Checksum): Option<UserOp> {
    match a
    case Add(ep, op, stored) => if stored && KeyOf(ep, op, sum) == k then None else w
    case Remove(_, _, _) => w
    case Pending(_, _) => w
    case Clear(_) => w
    case Restart(_) => None
    case Overwrite(ep, op) => if KeyOf(ep, op, sum) == k then Some(op) else w
  }

  function RunWritten(w: Option<UserOp>, acts: seq<Action>, k: string, sum: Checksum): Option<UserOp>
    decreases |acts|
  {
    if acts == [] then w else RunWritten(StepWritten(w, acts[0], k, sum), acts[1..], k, sum)
  }

  /** A pooled operation is the one recorded, unless something was written into it. */
  ghost predicate Written(c: Held, k: string, w: Option<UserOp>) {
    c.disk.Keys == c.live.Keys && (k in c.disk ==> c.live[k] == if w.Some? then w.value else c.disk[k])
  }

  lemma StepWrites(c: Held, a: Action, k: string, w: Option<UserOp>, sum: Checksum)
    requires Written(c, k, w)
    ensures Written(StepHeld(c, a, sum), k, StepWritten(w, a, k, sum))
  {
    hide KeyOf, KeysOf;
  }

  lemma {:induction false} RunWrites(c: Held, acts: seq<Action>, k: string, w: Option<UserOp>, sum: Checksum)
    requires Written(c, k, w)
    ensures Written(RunHeld(c, acts, sum), k, RunWritten(w, acts, k, sum))
    decreases |acts|
  {
    hide Written, StepHeld, StepWritten;
    if acts != [] {
      StepWrites(c, acts[0], k, w, sum);
      RunWrites(StepHeld(c, acts[0], sum), acts[1..], k, StepWritten(w, acts[0], k, sum), sum);
    }
  }

  /** For every run of the pool from its creation: the record of a pooled operation reads back as that operation if and
      only if nothing else was written into it since it was last added or reloaded. */
  lemma RunReadsBackIff(acts: seq<Action>, k: string, sum: Checksum)
    requires Legal(EMPTY_POOL, acts, sum) && k in RunHeld(NOTHING, acts, sum).disk
    ensures Run(EMPTY_POOL, acts, sum).Some?
    ensures var w, c := RunWritten(None, acts, k, sum), RunHeld(NOTHING, acts, sum);
      ReadsBack(Run(EMPTY_POOL, acts, sum).value, k) <==> w.None? || w.value == c.disk[k]
  {
    hide Shows, Run, Legal, RunHeld, RunWritten, ReadsBack;
    EmptyShows(sum);
    RunShows(EMPTY_POOL, acts, NOTHING, sum);
    RunWrites(NOTHING, acts, k, None, sum);
    ReadsBackIff(Run(EMPTY_POOL, acts, sum).value, RunHeld(NOTHING, acts, sum), k, sum);
  }

  // ---------------------------------------------------------------------------------------------
  // Rank order
  // ---------------------------------------------------------------------------------------------

  predicate TextLess(a: string, b: string) {
    b != "" && (a == "" || a[0] < b[0] || (a[0] == b[0] && TextLess(a[1..], b[1..])))
  }

  lemma {:induction false} TextLessTotal(a: string, b: string)
    ensures TextLess(a, b) || TextLess(b, a) || a == b
  {
    if a != "" && b != "" {
      TextLessTotal(a[1..], b[1..]);
      assert a == [a[0]] + a[1..] && b == [b[0]] + b[1..];
    }
  }

  lemma {:induction false} TextLessTransitive(a: string, b: string, c: string)
    requires TextLess(a, b) && TextLess(b, c)
    ensures TextLess(a, c)
  {
    if a != "" && a[0] == b[0] && b[0] == c[0] {
      TextLessTransitive(a[1..], b[1..], c[1..]);
    }
  }

  predicate RanksBefore(m: SortedSet, j: string, k: string)
    requires j in m && k in m
  {
    m[j].score < m[k].score || (m[j].score == m[k].score && TextLess(j, k))
  }

  /** `ks` lists the keys of a set in rank order. */
  ghost predicate Ranked(m: SortedSet, ks: seq<string>) {
    && (forall k :: k in ks <==> k in m)
    && (forall i, j :: 0 <= i < j < |ks| ==> ks[i] in m && ks[j] in m && RanksBefore(m, ks[i], ks[j]))
  }

  lemma RanksTransitive(m: SortedSet, a: string, b: string, c: string)
    requires a in m && b in m && c in m && RanksBefore(m, a, b) && RanksBefore(m, b, c)
    ensures RanksBefore(m, a, c)
  {
    hide TextLess;
    if m[a].score == m[c].score {
      TextLessTransitive(a, b, c);
    }
  }

  /** A sequence of keys of a set in rank order, none missing between its ends. */
  ghost predicate Sorted(m: SortedSet, ks: seq<string>) {
    && (forall k :: k in ks ==> k in m)
    && (forall i, j :: 0 <= i < j < |ks| ==> RanksBefore(m, ks[i], ks[j]))
  }

  method ByRank(m: SortedSet) returns (ks: seq<string>)
    ensures Ranked(m, ks)
  {
    hide TextLess;
    ks := [];
    var rest := m.Keys;
    while rest != {}
      invariant rest <= m.Keys
      invariant forall k :: k in ks <==> k in m && k !in rest
      invariant Sorted(m, ks)
      decreases |rest|
    {
      var k :| k in rest;
      rest := rest - {k};
      ks := Insert(m, ks, k);
    }
  }

  method Insert(m: SortedSet, ks: seq<string>, k: string) returns (r: seq<string>)
    requires Sorted(m, ks) && k in m && k !in ks
    ensures Sorted(m, r) && forall j :: j in r <==> j in ks || j == k
  {
    hide TextLess, RanksBefore;
    var i := 0;
    while i < |ks| && RanksBefore(m, ks[i], k)
      invariant i <= |ks|
      invariant forall j :: 0 <= j < i ==> RanksBefore(m, ks[j], k)
    {
      i := i + 1;
    }
    r := ks[..i] + [k] + ks[i..];
    forall j | i <= j < |ks|
      ensures RanksBefore(m, k, ks[j])
    {
      RanksTotal(m, ks[i], k);
      if i < j {
        RanksTransitive(m, k, ks[i], ks[j]);
      }
    }
    assert ks == ks[..i] + ks[i..];
    assert forall j :: 0 <= j < |r| ==> r[j] == if j < i then ks[j] else if j == i then k else ks[j - 1];
  }

  lemma RanksTotal(m: SortedSet, j: string, k: string)
    requires j in m && k in m && j != k
    ensures RanksBefore(m, j, k) || RanksBefore(m, k, j)
  {
    hide TextLess;
    TextLessTotal(j, k);
  }

  lemma {:induction false} NotLessThanItself(a: string)
    ensures !TextLess(a, a)
  {
    if a != "" {
      NotLessThanItself(a[1..]);
    }
  }

  lemma RanksOneWay(m: SortedSet, j: string, k: string)
    requires j in m && k in m && RanksBefore(m, j, k)
    ensures j != k && !RanksBefore(m, k, j)
  {
    hide TextLess;
    NotLessThanItself(j);
    if TextLess(j, k) && TextLess(k, j) {
      TextLessTransitive(j, k, j);
    }
  }

  lemma FirstIsLeast(m: SortedSet, ks: seq<string>, k: string)
    requires Sorted(m, ks) && ks != [] && k in ks
    ensures k == ks[0] || (k in ks[1..] && RanksBefore(m, ks[0], k))
  {
    hide RanksBefore;
    var i :| 0 <= i < |ks| && ks[i] == k;
    assert i > 0 ==> ks[1..][i - 1] == k;
  }

  lemma SortedTail(m: SortedSet, ks: seq<string>)
    requires Sorted(m, ks) && ks != []
    ensures Sorted(m, ks[1..]) && ks[0] !in ks[1..]
  {
    forall i | 0 < i < |ks|
      ensures ks[i] != ks[0]
    {
      RanksOneWay(m, ks[0], ks[i]);
    }
    hide RanksBefore;
  }

  lemma SameFirst(m: SortedSet, xs: seq<string>, ys: seq<string>)
    requires Sorted(m, xs) && Sorted(m, ys) && xs != [] && ys != [] && xs[0] in ys && ys[0] in xs
    ensures xs[0] == ys[0]
  {
    hide RanksBefore;
    FirstIsLeast(m, xs, ys[0]);
    FirstIsLeast(m, ys, xs[0]);
    if xs[0] != ys[0] {
      RanksOneWay(m, xs[0], ys[0]);
    }
  }

  /** A set has one rank order. */
  lemma {:induction false} SameOrder(m: SortedSet, xs: seq<string>, ys: seq<string>)
    requires Sorted(m, xs) && Sorted(m, ys) && forall k :: k in xs <==> k in ys
    ensures xs == ys
    decreases |xs|
  {
    hide Sorted, RanksBefore;
    assert ys != [] ==> ys[0] in xs;
    if xs != [] {
      assert xs[0] in ys;
      SameFirst(m, xs, ys);
      SortedTail(m, xs);
      SortedTail(m, ys);
      assert xs == [xs[0]] + xs[1..] && ys == [ys[0]] + ys[1..];
      forall k
        ensures k in xs[1..] <==> k in ys[1..]
      {
        assert k in xs <==> k == xs[0] || k in xs[1..];
        assert k in ys <==> k == ys[0] || k in ys[1..];
      }
      SameOrder(m, xs[1..], ys[1..]);
    }
  }

  // ---------------------------------------------------------------------------------------------
  // Arrival order
  // ---------------------------------------------------------------------------------------------

  /** The pooled keys of one EntryPoint in the order in which they were last added, and how many operations the arrival
      set held when each got its score: at that add, or when the pool was last restarted. */
  datatype History = History(arrival: seq<string>, size: map<string, nat>)

  const NO_HISTORY := History([], map[])

  type Histories = map<Address, History>

  function HistoryOf(h: Histories, ep: Address): History {
    if ep in h then h[ep] else NO_HISTORY
  }

  function Without(ks: seq<string>, gone: set<string>): seq<string> {
    if ks == [] then [] else (if ks[0] in gone then [] else [ks[0]]) + Without(ks[1..], gone)
  }

  function Arrives(h: History, k: string): History {
    History(Without(h.arrival, {k}) + [k], h.size[k := |h.arrival|])
  }

  /** How many keys of the EntryPoint come before each of them. */
  function LoadSizes(keys: seq<string>, ep: Address): map<string, nat> {
    if keys == [] then map[] else
    var m := LoadSizes(keys[..|keys| - 1], ep);
    if EntryPointOfKey(keys[|keys| - 1]) == Some(ep) then m[keys[|keys| - 1] := |m|] else m
  }

  function StepHistory(h: Histories, a: Action, sum: Checksum): Histories {
    match a
    case Add(ep, op, stored) => if stored then h[ep := Arrives(HistoryOf(h, ep), KeyOf(ep, op, sum))] else h
    case Remove(ep, ops, stored) =>
      if stored then
        h[ep := HistoryOf(h, ep).(arrival := Without(HistoryOf(h, ep).arrival, KeysOf(ep, ops, sum)))]
      else h
    case Pending(_, _) => h
    case Clear(stored) => if stored then map[] else h
    case Restart(order) => map ep | ep in h :: h[ep].(size := LoadSizes(order, ep))
    case Overwrite(_, _) => h
  }

  function RunHistory(h: Histories, acts: seq<Action>, sum: Checksum): Histories
    decreases |acts|
  {
    if acts == [] then h else RunHistory(StepHistory(h, acts[0], sum), acts[1..], sum)
  }

  ghost predicate Distinct(ks: seq<string>) {
    forall i, j :: 0 <= i < j < |ks| ==> ks[i] != ks[j]
  }

  /** The history names the keys of a set once each, and their sizes are the set's scores. */
  ghost predicate Records(h: History, m: SortedSet) {
    && Distinct(h.arrival)
    && (forall k :: k in h.arrival <==> k in m)
    && (forall k :: k in m ==> k in h.size && m[k].score == h.size[k])
  }

  ghost predicate Recorded(h: Histories, q: Queues) {
    forall ep: Address :: Records(HistoryOf(h, ep), SetOf(q, ep).all)
  }

  /** The history names the pooled keys of each EntryPoint once each. */
  ghost predicate Remembers(h: Histories, c: Contents) {
    forall ep: Address :: Distinct(HistoryOf(h, ep).arrival) &&
      forall k :: k in HistoryOf(h, ep).arrival <==> k in c && EntryPointOfKey(k) == Some(ep)
  }

  lemma {:induction false} WithoutMeans(ks: seq<string>, gone: set<string>)
    requires Distinct(ks)
    ensures Distinct(Without(ks, gone))
    ensures forall k :: k in Without(ks, gone) <==> k in ks && k !in gone
  {
    if ks != [] {
      WithoutMeans(ks[1..], gone);
      assert ks == [ks[0]] + ks[1..];
      assert ks[0] !in ks[1..];
    }
  }

  lemma {:induction false} WithoutNone(ks: seq<string>, gone: set<string>)
    requires forall k :: k in ks ==> k !in gone
    ensures Without(ks, gone) == ks
  {
    if ks != [] {
      WithoutNone(ks[1..], gone);
    }
  }

  lemma {:induction false} DistinctSize(ks: seq<string>, keys: set<string>)
    requires Distinct(ks) && forall k :: k in ks <==> k in keys
    ensures |ks| == |keys|
  {
    if ks == [] {
      assert keys == {};
    } else {
      assert ks == [ks[0]] + ks[1..];
      assert ks[0] !in ks[1..];
      DistinctSize(ks[1..], keys - {ks[0]});
    }
  }

  lemma ArrivesRecorded(h: History, m: SortedSet, k: string, op: UserOp)
    requires Records(h, m)
    ensures Records(Arrives(h, k), m[k := Node(|m|, op)])
  {
    WithoutMeans(h.arrival, {k});
    DistinctSize(h.arrival, m.Keys);
    hide Without;
    assert m.Keys == m.Keys;
    var front := Without(h.arrival, {k});
    assert forall i :: 0 <= i < |front| ==> front[i] in front;
  }

  lemma LeavesRecorded(h: History, m: SortedSet, gone: set<string>)
    requires Records(h, m)
    ensures Records(h.(arrival := Without(h.arrival, gone)), m - gone)
  {
    WithoutMeans(h.arrival, gone);
    hide Without, Distinct;
  }

  lemma {:induction false} WithoutOpsAll(s: EntryPointSet, ep: Address, ops: seq<UserOp>, sum: Checksum)
    ensures WithoutOps(s, ep, ops, sum).all == s.all - KeysOf(ep, ops, sum)
    decreases |ops|
  {
    hide KeyOf;
    if ops == [] {
      assert KeysOf(ep, ops, sum) == {};
      assert s.all - {} == s.all;
    } else {
      var k := KeyOf(ep, ops[0], sum);
      WithoutOpsAll(WithoutKey(s, k, ops[0].sender), ep, ops[1..], sum);
      KeysOfTail(ep, ops, sum);
      hide KeysOf;
      assert s.all - {k} - KeysOf(ep, ops[1..], sum) == s.all - KeysOf(ep, ops, sum);
    }
  }

  lemma SetShows(q: Queues, c: Contents, ep: Address)
    requires QueueView(q, c)
    ensures forall k :: k in SetOf(q, ep).all <==> k in c && EntryPointOfKey(k) == Some(ep)
  {
    hide EntryPointOfKey, SenderView;
    if ep in q {
      assert AllView(q[ep], ep, c);
    }
  }

  lemma RecordedRemembers(h: Histories, q: Queues, c: Contents)
    requires Recorded(h, q) && QueueView(q, c)
    ensures Remembers(h, c)
  {
    hide EntryPointOfKey, QueueView, Distinct;
    forall ep: Address
      ensures Distinct(HistoryOf(h, ep).arrival)
      ensures forall k :: k in HistoryOf(h, ep).arrival <==> k in c && EntryPointOfKey(k) == Some(ep)
    {
      SetShows(q, c, ep);
      assert Records(HistoryOf(h, ep), SetOf(q, ep).all);
    }
  }

  /** The scores of a set are the given sizes. */
  ghost predicate Scored(m: SortedSet, sizes: map<string, nat>) {
    m.Keys == sizes.Keys && forall k :: k in m && k in sizes ==> m[k].score == sizes[k]
  }

  lemma ScoredMore(m: SortedSet, sizes: map<string, nat>, k: string, op: UserOp)
    requires Scored(m, sizes)
    ensures Scored(m[k := Node(|m|, op)], sizes[k := |sizes|])
  {
    assert |m| == |m.Keys| == |sizes.Keys| == |sizes|;
  }

  lemma {:induction false} LoadScores(db: Database, keys: seq<string>, c: Contents, ep: Address, sum: Checksum)
    requires Keyed(c, sum) && DbView(db, c, sum) && forall k :: k in keys ==> k in c
    ensures Load(db, keys, sum).Some?
    ensures Scored(SetOf(Load(db, keys, sum).value, ep).all, LoadSizes(keys, ep))
    decreases |keys|
  {
    hide EntryPointOfKey, KeyOf, New, Keyed, DbView, Scored;
    if keys == [] {
      LoadNothing(db, sum);
      ScoredNone();
    } else {
      var front, key := keys[..|keys| - 1], keys[|keys| - 1];
      LoadScores(db, front, c, ep, sum);
      RecordReadsBack(db, key, c, sum);
      LoadMore(db, keys, c[key], sum);
      hide Load;
      var q := Load(db, front, sum).value;
      if EntryPointOfKey(key) == Some(ep) {
        ScoredMore(SetOf(q, ep).all, LoadSizes(front, ep), key, c[key]);
      }
    }
  }

  lemma ScoredNone()
    ensures Scored(map[], map[])
  {
  }

  lemma RestartRecorded(h: Histories, db: Database, order: seq<string>, q: Queues, c: Contents, sum: Checksum)
    requires Remembers(h, c) && Keyed(c, sum) && DbView(db, c, sum) && (forall k :: k in order ==> k in c)
    requires Load(db, order, sum) == Some(q) && QueueView(q, c)
    ensures Recorded(StepHistory(h, Restart(order), sum), q)
  {
    hide EntryPointOfKey, Keyed, DbView, QueueView, Load, LoadSizes, Distinct;
    var h' := StepHistory(h, Restart(order), sum);
    forall ep: Address
      ensures Records(HistoryOf(h', ep), SetOf(q, ep).all)
    {
      SetShows(q, c, ep);
      LoadScores(db, order, c, ep, sum);
      assert HistoryOf(h', ep).arrival == HistoryOf(h, ep).arrival;
    }
  }

  /** Each action keeps the sizes of the history equal to the scores in the arrival sets. */
  lemma StepRecords(p: Pool, a: Action, c: Held, h: Histories, sum: Checksum)
    requires Shows(p, c, sum) && Enabled(p, a) && Recorded(h, p.queues)
    ensures Step(p, a, sum).Some?
    ensures Recorded(StepHistory(h, a, sum), Step(p, a, sum).value.queues)
  {
    hide Keyed, DbView, QueueView, KeyOf, KeysOf, ToMap, Records, Load, LoadSizes, Arrives, Without, PoolKeys;
    StepShows(p, a, c, sum);
    match a
    case Add(ep, op, stored) =>
      assert Records(HistoryOf(h, ep), SetOf(p.queues, ep).all);
      ArrivesRecorded(HistoryOf(h, ep), SetOf(p.queues, ep).all, KeyOf(ep, op, sum), op);
      Elsewhere(h, p.queues, StepHistory(h, a, sum), Step(p, a, sum).value.queues, ep);
    case Remove(ep, ops, stored) =>
      assert Records(HistoryOf(h, ep), SetOf(p.queues, ep).all);
      LeavesRecorded(HistoryOf(h, ep), SetOf(p.queues, ep).all, KeysOf(ep, ops, sum));
      WithoutOpsAll(SetOf(p.queues, ep), ep, ops, sum);
      Elsewhere(h, p.queues, StepHistory(h, a, sum), Step(p, a, sum).value.queues, ep);
    case Pending(ep, _) =>
      assert Records(HistoryOf(h, ep), SetOf(p.queues, ep).all);
      Elsewhere(h, p.queues, h, Step(p, a, sum).value.queues, ep);
    case Clear(stored) =>
      NothingRecorded();
    case Restart(order) =>
      PoolKeysAreContents(p.db, c.disk, sum);
      RecordedRemembers(h, p.queues, c.live);
      SameKeysRemembered(h, c);
      RestartRecorded(h, p.db, order, Step(p, a, sum).value.queues, c.disk, sum);
    case Overwrite(ep, op) =>
      assert Records(HistoryOf(h, ep), SetOf(p.queues, ep).all);
      OverwriteRecorded(HistoryOf(h, ep), SetOf(p.queues, ep), KeyOf(ep, op, sum), op);
      Elsewhere(h, p.queues, h, Step(p, a, sum).value.queues, ep);
  }

  lemma SameKeysRemembered(h: Histories, c: Held)
    requires c.disk.Keys == c.live.Keys && Remembers(h, c.live)
    ensures Remembers(h, c.disk)
  {
    hide EntryPointOfKey, Distinct;
    assert forall k :: k in c.disk <==> k in c.live;
  }

  lemma OverwriteRecorded(h: History, s: EntryPointSet, k: string, op: UserOp)
    requires Records(h, s.all)
    ensures Records(h, Overwritten(s, k, op).all)
  {
    hide Distinct;
  }

  lemma NothingRecorded()
    ensures Recorded(map[], map[])
  {
  }

  /** A change to one EntryPoint leaves the others recorded. */
  lemma Elsewhere(h: Histories, q: Queues, h': Histories, q': Queues, ep: Address)
    requires Recorded(h, q) && (forall e: Address :: e != ep ==> HistoryOf(h', e) == HistoryOf(h, e) && SetOf(q', e) == SetOf(q, e))
    requires Records(HistoryOf(h', ep), SetOf(q', ep).all)
    ensures Recorded(h', q')
  {
    hide Records;
    forall e: Address
      ensures Records(HistoryOf(h', e), SetOf(q', e).all)
    {
      assert Records(HistoryOf(h, e), SetOf(q, e).all);
    }
  }

  lemma {:induction false} RunRecords(p: Pool, acts: seq<Action>, c: Held, h: Histories, sum: Checksum)
    requires Shows(p, c, sum) && Legal(p, acts, sum) && Recorded(h, p.queues)
    ensures Run(p, acts, sum).Some?
    ensures Recorded(RunHistory(h, acts, sum), Run(p, acts, sum).value.queues)
    decreases |acts|
  {
    hide Shows, Step, StepHeld, StepHistory, Enabled, Recorded;
    if acts != [] {
      StepShows(p, acts[0], c, sum);
      StepRecords(p, acts[0], c, h, sum);
      RunRecords(Step(p, acts[0], sum).value, acts[1..], StepHeld(c, acts[0], sum), StepHistory(h, acts[0], sum), sum);
    }
  }

  /** One key got its score from a smaller set than the other, or from one as large while being the smaller text. */
  predicate SmallerThen(h: History, j: string, k: string) {
    j in h.size && k in h.size && (h.size[j] < h.size[k] || (h.size[j] == h.size[k] && TextLess(j, k)))
  }

  ghost predicate SizesClimb(h: History) {
    forall i, j :: 0 <= i < j < |h.arrival| ==> SmallerThen(h, h.arrival[i], h.arrival[j])
  }

  /** A set is listed in arrival order if and only if the sizes climb along it. */
  lemma RankIsArrivalIff(h: History, m: SortedSet, ks: seq<string>)
    requires Records(h, m) && Ranked(m, ks)
    ensures ks == h.arrival <==> SizesClimb(h)
  {
    hide TextLess, Distinct;
    assert forall j, k :: j in m && k in m ==> (SmallerThen(h, j, k) <==> RanksBefore(m, j, k));
    hide SmallerThen, RanksBefore;
    assert forall i :: 0 <= i < |h.arrival| ==> h.arrival[i] in h.arrival;
    if SizesClimb(h) {
      SameOrder(m, h.arrival, ks);
    }
  }

  const EMPTY_POOL := Pool(map[], map[])

  /** For every run of the pool from its creation: the operations of an EntryPoint are dumped in the order they arrived
      if and only if each got its score from a smaller set than the next, or from an equal one with a smaller key. */
  lemma DumpIsFifoIff(acts: seq<Action>, ep: Address, ks: seq<string>, sum: Checksum)
    requires Legal(EMPTY_POOL, acts, sum)
    requires Run(EMPTY_POOL, acts, sum).Some? ==> Ranked(SetOf(Run(EMPTY_POOL, acts, sum).value.queues, ep).all, ks)
    ensures var h := HistoryOf(RunHistory(map[], acts, sum), ep); ks == h.arrival <==> SizesClimb(h)
  {
    hide Legal, Run, Ranked, RunHistory, Records, SizesClimb;
    EmptyShows(sum);
    NothingRecorded();
    RunRecords(EMPTY_POOL, acts, NOTHING, map[], sum);
    RankIsArrivalIff(HistoryOf(RunHistory(map[], acts, sum), ep), SetOf(Run(EMPTY_POOL, acts, sum).value.queues, ep).all, ks);
  }

  // Runs that only add fresh keys

  /** The action adds nothing but an operation under a fresh key, and removes and reloads nothing. */
  predicate Fresh(c: Held, a: Action, sum: Checksum) {
    match a
    case Add(ep, op, stored) => stored ==> KeyOf(ep, op, sum) !in c.live
    case Remove(_, _, stored) => !stored
    case Pending(_, _) => true
    case Clear(stored) => !stored
    case Restart(_) => false
    case Overwrite(_, _) => true
  }

  predicate FreshOnly(c: Held, acts: seq<Action>, sum: Checksum)
    decreases |acts|
  {
    acts != [] ==> Fresh(c, acts[0], sum) && FreshOnly(StepHeld(c, acts[0], sum), acts[1..], sum)
  }

  /** The keys that the actions store for an EntryPoint, in order. */
  function Arrivals(acts: seq<Action>, ep: Address, sum: Checksum): seq<string>
    decreases |acts|
  {
    if acts == [] then []
    else (if acts[0].Add? && acts[0].stored && acts[0].ep == ep then [KeyOf(ep, acts[0].op, sum)] else [])
         + Arrivals(acts[1..], ep, sum)
  }

  /** Each key got its score from a set as large as the number of keys before it. */
  ghost predicate Straight(h: History) {
    forall i :: 0 <= i < |h.arrival| ==> h.arrival[i] in h.size && h.size[h.arrival[i]] == i
  }

  lemma StraightClimbs(h: History)
    requires Straight(h)
    ensures SizesClimb(h)
  {
    hide TextLess;
  }

  lemma ArrivesStraight(h: History, k: string)
    requires Straight(h) && k !in h.arrival
    ensures Arrives(h, k).arrival == h.arrival + [k] && Straight(Arrives(h, k))
  {
    WithoutNone(h.arrival, {k});
  }

  lemma FreshStep(c: Held, a: Action, h: Histories, ep: Address, sum: Checksum)
    requires Remembers(h, c.live) && Fresh(c, a, sum) && Straight(HistoryOf(h, ep))
    ensures var h' := StepHistory(h, a, sum);
      Straight(HistoryOf(h', ep)) && HistoryOf(h', ep).arrival == HistoryOf(h, ep).arrival + Arrivals([a], ep, sum)
  {
    hide KeyOf, EntryPointOfKey, Arrives, Straight;
    assert Arrivals([a][1..], ep, sum) == [];
    if a.Add? && a.stored && a.ep == ep {
      ArrivesStraight(HistoryOf(h, ep), KeyOf(ep, a.op, sum));
    }
  }

  lemma {:induction false} FreshRun(p: Pool, acts: seq<Action>, c: Held, h: Histories, ep: Address, sum: Checksum)
    requires Shows(p, c, sum) && Legal(p, acts, sum) && Recorded(h, p.queues)
    requires FreshOnly(c, acts, sum) && Straight(HistoryOf(h, ep))
    ensures var h' := HistoryOf(RunHistory(h, acts, sum), ep);
      Straight(h') && h'.arrival == HistoryOf(h, ep).arrival + Arrivals(acts, ep, sum)
    decreases |acts|
  {
    hide Shows, Step, StepHeld, StepHistory, Enabled, Recorded, Straight, Fresh, Remembers;
    if acts != [] {
      var a := acts[0];
      StepShows(p, a, c, sum);
      StepRecords(p, a, c, h, sum);
      assert Remembers(h, c.live) by { ShowsQueue(p, c, sum); RecordedRemembers(h, p.queues, c.live); }
      FreshStep(c, a, h, ep, sum);
      FreshRun(Step(p, a, sum).value, acts[1..], StepHeld(c, a, sum), StepHistory(h, a, sum), ep, sum);
      ArrivalsCons(acts, ep, sum);
      hide Arrivals, Legal, Run, FreshOnly;
      assert HistoryOf(h, ep).arrival + Arrivals([a], ep, sum) + Arrivals(acts[1..], ep, sum)
          == HistoryOf(h, ep).arrival + Arrivals(acts, ep, sum);
    }
  }

  lemma ArrivalsCons(acts: seq<Action>, ep: Address, sum: Checksum)
    requires acts != []
    ensures Arrivals(acts, ep, sum) == Arrivals([acts[0]], ep, sum) + Arrivals(acts[1..], ep, sum)
  {
    hide KeyOf;
    assert Arrivals([acts[0]][1..], ep, sum) == [];
  }

  lemma ShowsQueue(p: Pool, c: Held, sum: Checksum)
    requires Shows(p, c, sum)
    ensures QueueView(p.queues, c.live)
  {
  }

  /** Operations that arrive under fresh keys, with nothing removed or restarted, are dumped in the order they were
      added. */
  lemma FreshArrivalsAreFifo(acts: seq<Action>, ep: Address, ks: seq<string>, sum: Checksum)
    requires Legal(EMPTY_POOL, acts, sum) && FreshOnly(NOTHING, acts, sum)
    requires Run(EMPTY_POOL, acts, sum).Some? ==> Ranked(SetOf(Run(EMPTY_POOL, acts, sum).value.queues, ep).all, ks)
    ensures ks == Arrivals(acts, ep, sum)
  {
    hide Legal, Run, Ranked, RunHistory, SizesClimb, FreshOnly;
    EmptyShows(sum);
    NothingRecorded();
    FreshRun(EMPTY_POOL, acts, NOTHING, map[], ep, sum);
    hide Straight;
    StraightClimbs(HistoryOf(RunHistory(map[], acts, sum), ep));
    DumpIsFifoIff(acts, ep, ks, sum);
    assert [] + Arrivals(acts, ep, sum) == Arrivals(acts, ep, sum);
  }

  // Runs that break the order

  lemma RunOne(p: Pool, a: Action, rest: seq<Action>, sum: Checksum)
    requires Enabled(p, a) && Step(p, a, sum).Some? && Legal(Step(p, a, sum).value, rest, sum)
    ensures Legal(p, [a] + rest, sum)
    ensures Run(p, [a] + rest, sum) == Run(Step(p, a, sum).value, rest, sum)
  {
    hide Step, Enabled;
    assert ([a] + rest)[1..] == rest;
  }

  lemma {:induction false} AddsAndRemovalsAreLegal(p: Pool, acts: seq<Action>, sum: Checksum)
    requires forall a :: a in acts ==> (a.Add? && a.op.Valid()) || a.Remove?
    ensures Legal(p, acts, sum)
    decreases |acts|
  {
    if acts != [] {
      hide AddOp, RemoveOps, Legal;
      assert acts[0] in acts;
      AddsAndRemovalsAreLegal(Step(p, acts[0], sum).value, acts[1..], sum);
      RunOne(p, acts[0], acts[1..], sum);
      assert [acts[0]] + acts[1..] == acts;
    }
  }

  /** Two keys that got their scores from equally large sets. */
  lemma TiedClimbsIff(h: History, j: string, k: string)
    requires h.arrival == [j, k] && j in h.size && k in h.size && h.size[j] == h.size[k]
    ensures SizesClimb(h) <==> TextLess(j, k)
  {
    hide TextLess;
    if SizesClimb(h) {
      assert SmallerThen(h, h.arrival[0], h.arrival[1]);
    }
  }

  lemma RemovalHistory(ep: Address, a: UserOp, b: UserOp, c: UserOp, acts: seq<Action>, sum: Checksum)
    requires KeyOf(ep, a, sum) != KeyOf(ep, b, sum) && KeyOf(ep, b, sum) != KeyOf(ep, c, sum)
    requires acts == [Add(ep, a, true), Add(ep, b, true), Remove(ep, [a], true), Add(ep, c, true)]
    ensures HistoryOf(RunHistory(map[], acts, sum), ep) ==
            History([KeyOf(ep, b, sum), KeyOf(ep, c, sum)],
                    map[KeyOf(ep, a, sum) := 0, KeyOf(ep, b, sum) := 1][KeyOf(ep, c, sum) := 1])
  {
    var ka, kb, kc := KeyOf(ep, a, sum), KeyOf(ep, b, sum), KeyOf(ep, c, sum);
    hide KeyOf;
    KeysOfTail(ep, [a], sum);
    assert KeysOf(ep, [a][1..], sum) == {};
    assert KeysOf(ep, [a], sum) == {ka};
    hide KeysOf;
    var h1 := History([ka], map[ka := 0]);
    assert Arrives(NO_HISTORY, ka) == h1;
    hide Arrives, Without;
    ArrivesAfter(h1, ka, kb);
    WithoutFirst(ka, kb);
    var h2 := History([ka, kb], map[ka := 0, kb := 1]);
    assert h1.size[kb := 1] == h2.size;
    ArrivesAfter(h2.(arrival := [kb]), kb, kc);
    FourSteps(map[], acts, sum);
    var s1 := StepHistory(map[], acts[0], sum);
    var s2 := StepHistory(s1, acts[1], sum);
    var s3 := StepHistory(s2, acts[2], sum);
    assert HistoryOf(s1, ep) == h1;
    assert HistoryOf(s2, ep) == h2;
    assert HistoryOf(s3, ep) == h2.(arrival := [kb]);
  }

  predicate SameSlot(a: UserOp, b: UserOp) {
    a.sender == b.sender && a.nonce == b.nonce
  }

  lemma KeysDiffer(ep: Address, a: UserOp, b: UserOp, sum: Checksum)
    requires !SameSlot(a, b)
    ensures KeyOf(ep, a, sum) != KeyOf(ep, b, sum)
  {
    hide UniqueKey;
    if KeyOf(ep, a, sum) == KeyOf(ep, b, sum) {
      KeyInjective(ep, a.sender, a.nonce, ep, b.sender, b.nonce, sum);
    }
  }

  /** However a run's operations are dumped, it is in this order exactly when `inOrder`. */
  ghost predicate DumpedAs(acts: seq<Action>, ep: Address, order: seq<string>, inOrder: bool, sum: Checksum) {
    && Legal(EMPTY_POOL, acts, sum)
    && Run(EMPTY_POOL, acts, sum).Some?
    && forall ks :: Ranked(SetOf(Run(EMPTY_POOL, acts, sum).value.queues, ep).all, ks) ==> (ks == order <==> inOrder)
  }

  lemma DumpedByHistory(acts: seq<Action>, ep: Address, h: History, sum: Checksum)
    requires Legal(EMPTY_POOL, acts, sum) && h == HistoryOf(RunHistory(map[], acts, sum), ep)
    ensures DumpedAs(acts, ep, h.arrival, SizesClimb(h), sum)
  {
    hide Legal, Run, Ranked, RunHistory, SizesClimb;
    EmptyShows(sum);
    RunShows(EMPTY_POOL, acts, NOTHING, sum);
    forall ks | Ranked(SetOf(Run(EMPTY_POOL, acts, sum).value.queues, ep).all, ks)
      ensures ks == h.arrival <==> SizesClimb(h)
    {
      DumpIsFifoIff(acts, ep, ks, sum);
    }
  }

  /** After a removal the next arrival ties with the last one, so the two are dumped in order of their keys. */
  lemma RemovalBreaksFifo(ep: Address, a: UserOp, b: UserOp, c: UserOp, sum: Checksum)
    requires a.Valid() && b.Valid() && c.Valid() && !SameSlot(a, b) && !SameSlot(b, c)
    ensures var kb, kc := KeyOf(ep, b, sum), KeyOf(ep, c, sum);
      DumpedAs([Add(ep, a, true), Add(ep, b, true), Remove(ep, [a], true), Add(ep, c, true)], ep, [kb, kc],
               TextLess(kb, kc), sum)
  {
    hide KeyOf, TextLess, Legal, SizesClimb, RunHistory, DumpedAs;
    var acts := [Add(ep, a, true), Add(ep, b, true), Remove(ep, [a], true), Add(ep, c, true)];
    KeysDiffer(ep, a, b, sum);
    KeysDiffer(ep, b, c, sum);
    AddsAndRemovalsAreLegal(EMPTY_POOL, acts, sum);
    RemovalHistory(ep, a, b, c, acts, sum);
    var h := HistoryOf(RunHistory(map[], acts, sum), ep);
    TiedClimbsIff(h, KeyOf(ep, b, sum), KeyOf(ep, c, sum));
    DumpedByHistory(acts, ep, h, sum);
  }

  lemma ArrivesAfter(h: History, j: string, k: string)
    requires h.arrival == [j] && j != k
    ensures Arrives(h, k) == History([j, k], h.size[k := 1])
  {
    WithoutNone([j], {k});
  }

  lemma WithoutFirst(j: string, k: string)
    requires j != k
    ensures Without([j, k], {j}) == [k]
  {
    assert [j, k][1..] == [k];
    WithoutNone([k], {j});
  }

  lemma FourSteps(h: Histories, acts: seq<Action>, sum: Checksum)
    requires |acts| == 4
    ensures RunHistory(h, acts, sum) ==
            StepHistory(StepHistory(StepHistory(StepHistory(h, acts[0], sum), acts[1], sum), acts[2], sum), acts[3], sum)
  {
    hide StepHistory;
    var h1 := StepHistory(h, acts[0], sum);
    ThreeSteps(h1, acts[1..], sum);
  }

  lemma ThreeSteps(h: Histories, acts: seq<Action>, sum: Checksum)
    requires |acts| == 3
    ensures RunHistory(h, acts, sum) == StepHistory(StepHistory(StepHistory(h, acts[0], sum), acts[1], sum), acts[2], sum)
  {
    hide StepHistory;
    var h1 := StepHistory(h, acts[0], sum);
    var h2 := StepHistory(h1, acts[1], sum);
    var h3 := StepHistory(h2, acts[2], sum);
    var a1, a2 := acts[1..], acts[1..][1..];
    assert a1[0] == acts[1] && a2[0] == acts[2] && a2[1..] == [];
    assert RunHistory(h3, [], sum) == h3;
    assert RunHistory(h2, a2, sum) == h3;
    assert RunHistory(h1, a1, sum) == h3;
  }

  lemma ReplacementHistory(ep: Address, a: UserOp, a': UserOp, b: UserOp, acts: seq<Action>, sum: Checksum)
    requires KeyOf(ep, a, sum) == KeyOf(ep, a', sum) != KeyOf(ep, b, sum)
    requires acts == [Add(ep, a, true), Add(ep, a', true), Add(ep, b, true)]
    ensures HistoryOf(RunHistory(map[], acts, sum), ep) ==
            History([KeyOf(ep, a, sum), KeyOf(ep, b, sum)], map[KeyOf(ep, a, sum) := 1, KeyOf(ep, b, sum) := 1])
  {
    var ka, kb := KeyOf(ep, a, sum), KeyOf(ep, b, sum);
    hide KeyOf;
    var h1 := History([ka], map[ka := 0]);
    var h2 := History([ka], map[ka := 1]);
    assert Arrives(NO_HISTORY, ka) == h1;
    assert Arrives(h1, ka) == h2 by {
      assert Without([ka], {ka}) == [];
      assert h1.size[ka := 1] == h2.size;
    }
    hide Arrives;
    ArrivesAfter(h2, ka, kb);
    assert h2.size[kb := 1] == map[ka := 1, kb := 1];
    ThreeSteps(map[], acts, sum);
    var s1 := StepHistory(map[], acts[0], sum);
    var s2 := StepHistory(s1, acts[1], sum);
    assert HistoryOf(s1, ep) == h1;
    assert HistoryOf(s2, ep) == h2;
  }

  /** A replacement gets its score from a set that does not grow, so it ties with the next arrival. */
  lemma ReplacementBreaksFifo(ep: Address, a: UserOp, a': UserOp, b: UserOp, sum: Checksum)
    requires a.Valid() && a'.Valid() && b.Valid() && SameSlot(a, a') && !SameSlot(a, b)
    ensures var ka, kb := KeyOf(ep, a, sum), KeyOf(ep, b, sum);
      DumpedAs([Add(ep, a, true), Add(ep, a', true), Add(ep, b, true)], ep, [ka, kb], TextLess(ka, kb), sum)
  {
    assert KeyOf(ep, a, sum) == KeyOf(ep, a', sum);
    hide KeyOf, TextLess, Legal, SizesClimb, RunHistory, DumpedAs;
    var acts := [Add(ep, a, true), Add(ep, a', true), Add(ep, b, true)];
    KeysDiffer(ep, a, b, sum);
    AddsAndRemovalsAreLegal(EMPTY_POOL, acts, sum);
    ReplacementHistory(ep, a, a', b, acts, sum);
    var h := HistoryOf(RunHistory(map[], acts, sum), ep);
    TiedClimbsIff(h, KeyOf(ep, a, sum), KeyOf(ep, b, sum));
    DumpedByHistory(acts, ep, h, sum);
  }

  // ---------------------------------------------------------------------------------------------
  // The mempool object
  // ---------------------------------------------------------------------------------------------

  /** Nonces that fit 64 bits are in the order of their low 64 bits. */
  lemma SmallNonces(ops: seq<UserOp>)
    ensures forall i :: 0 <= i < |ops| && ops[i].nonce < 0x8000_0000_0000_0000 ==> Int64(ops[i].nonce) == ops[i].nonce
  {
  }

  /** `ops` are the operations under the keys `ks`. */
  ghost predicate Lists(ops: seq<UserOp>, ks: seq<string>, c: Contents) {
    |ops| == |ks| && forall i :: 0 <= i < |ks| ==> ks[i] in c && ops[i] == c[ks[i]]
  }

  /** The operations of a set, by the given keys. */
  method Collect(m: SortedSet, ks: seq<string>) returns (ops: seq<UserOp>)
    requires forall k :: k in ks ==> k in m
    ensures |ops| == |ks| && forall i :: 0 <= i < |ks| ==> ops[i] == m[ks[i]].op
  {
    ops := [];
    for i := 0 to |ks|
      invariant |ops| == i && forall j :: 0 <= j < i ==> ops[j] == m[ks[j]].op
    {
      ops := ops + [m[ks[i]].op];
    }
  }

  class Instance {
    const sum: Checksum
    var db: Database
    var queues: Queues
    ghost var held: Held
    ghost var history: Histories

    ghost predicate Valid()
      reads this
    {
      Shows(Pool(db, queues), held, sum) && Recorded(history, queues)
    }

    /** Opens a database that holds the operations `c`, reading its keys in the given order. They arrived in the order
        that `past` names. */
    constructor (sum: Checksum, db: Database, order: seq<string>, ghost c: Contents, ghost past: Histories)
      requires Keyed(c, sum) && DbView(db, c, sum) && Enumerates(order, PoolKeys(db)) && Remembers(past, c)
      ensures Valid() && held == Held(c, c) && this.db == db && this.sum == sum
      ensures history == StepHistory(past, Restart(order), sum)
    {
      hide EntryPointOfKey, KeyOf, New, WithOp, Load, Keyed, DbView, QueueView, PoolKeys, Remembers, Recorded, StepHistory;
      this.sum := sum;
      this.db := db;
      this.held := Held(c, c);
      var q: Queues := map[];
      PoolKeysAreContents(db, c, sum);
      var i := 0;
      LoadNothing(db, sum);
      assert order[..0] == [];
      while i < |order|
        invariant i <= |order|
        invariant Load(db, order[..i], sum) == Some(q)
      {
        var key := order[i];
        RecordReadsBack(db, key, c, sum);
        var ep := EntryPointOfKey(key).value;
        var op := New(db[key].data).value;
        assert order[..i + 1][..i] == order[..i];
        LoadMore(db, order[..i + 1], op, sum);
        q := q[ep := WithOp(SetOf(q, ep), KeyOf(ep, op, sum), op)];
        i := i + 1;
      }
      assert order[..|order|] == order;
      LoadShows(db, order, c, sum);
      assert Restrict(c, order) == c;
      RestartRecorded(past, db, order, q, c, sum);
      this.queues := q;
      this.history := StepHistory(past, Restart(order), sum);
    }

    method AddOp(ep: Address, op: UserOp, stored: bool) returns (ok: bool)
      requires Valid() && op.Valid()
      modifies this
      ensures Valid() && ok == stored && (!ok ==> db == old(db))
      ensures var k := KeyOf(ep, op, sum);
        held == if ok then Held(old(held).disk[k := op], old(held).live[k := op]) else old(held)
      ensures history == StepHistory(old(history), Add(ep, op, stored), sum)
    {
      hide KeyOf, WithOp, Shows, ToMap, Recorded, Arrives;
      ghost var a := Add(ep, op, stored);
      StepRecords(Pool(db, queues), a, held, history, sum);
      history := StepHistory(history, a, sum);
      if !stored {
        return false;
      }
      AddShows(Pool(db, queues), ep, op, held, sum);
      var key := KeyOf(ep, op, sum);
      db := db[key := OpRecord(ToMap(op, sum))];
      queues := queues[ep := WithOp(SetOf(queues, ep), key, op)];
      held := StepHeld(held, a, sum);
      return true;
    }

    method RemoveOps(ep: Address, ops: seq<UserOp>, stored: bool) returns (ok: bool)
      requires Valid()
      modifies this
      ensures Valid() && ok == stored && (!ok ==> db == old(db))
      ensures var keys := KeysOf(ep, ops, sum);
        held == if ok then Held(old(held).disk - keys, old(held).live - keys) else old(held)
      ensures history == StepHistory(old(history), Remove(ep, ops, stored), sum)
    {
      hide KeyOf, WithoutKey, Shows, KeysOf, WithoutOps, Recorded, Without;
      ghost var a := Remove(ep, ops, stored);
      StepRecords(Pool(db, queues), a, held, history, sum);
      history := StepHistory(history, a, sum);
      if !stored {
        return false;
      }
      RemoveShows(Pool(db, queues), ep, ops, held, sum);
      var records := DeleteRecords(db, ep, ops, sum);
      var eps := DeleteNodes(SetOf(queues, ep), ep, ops, sum);
      db := records;
      queues := queues[ep := eps];
      held := StepHeld(held, a, sum);
      return true;
    }

    /** A sender's operations, highest nonce rank first. */
    method GetOps(ep: Address, sender: Address) returns (ops: seq<UserOp>, ghost ks: seq<string>)
      requires Valid()
      modifies this
      ensures Valid() && held == old(held) && db == old(db) && history == old(history)
      ensures Lists(ops, ks, held.live)
      ensures forall k :: k in ks <==> k in held.live && EntryPointOfKey(k) == Some(ep) && held.live[k].sender == sender
      ensures forall i, j :: 0 <= i < j < |ops| ==> ks[i] != ks[j] && Int64(ops[j].nonce) <= Int64(ops[i].nonce)
      ensures (forall i :: 0 <= i < |ops| ==> ops[i].nonce < 0x8000_0000_0000_0000) ==>
                forall i, j :: 0 <= i < j < |ops| ==> ops[j].nonce <= ops[i].nonce
    {
      hide Shows, EntryPointOfKey, Int64, Ranked, Recorded;
      TouchShows(Pool(db, queues), ep, sender, held, sum);
      StepRecords(Pool(db, queues), Pending(ep, sender), held, history, sum);
      var s := SetOf(queues, ep);
      s := s.(senders := s.senders[sender := SenderSet(s, sender)]);
      queues := queues[ep := s];
      var up := ByRank(s.senders[sender]);
      SenderRanked(Pool(db, queues), ep, sender, held, sum, up);
      var down := seq(|up|, i requires 0 <= i < |up| => up[|up| - 1 - i]);
      assert forall k :: k in down <==> k in up by {
        assert forall i :: 0 <= i < |up| ==> up[i] == down[|up| - 1 - i];
      }
      ops := Collect(s.senders[sender], down);
      ks := down;
      SmallNonces(ops);
    }

    /** All operations of an EntryPoint, in rank order, which is the order they arrived in if and only if the set they
        got their scores from kept growing. */
    method Dump(ep: Address) returns (ops: seq<UserOp>, ghost ks: seq<string>)
      requires Valid()
      modifies this
      ensures Valid() && held == old(held) && db == old(db) && history == old(history)
      ensures Lists(ops, ks, held.live)
      ensures forall k :: k in ks <==> k in held.live && EntryPointOfKey(k) == Some(ep)
      ensures forall i, j :: 0 <= i < j < |ops| ==> ks[i] != ks[j]
      ensures Ranked(SetOf(queues, ep).all, ks)
      ensures ks == HistoryOf(history, ep).arrival <==> SizesClimb(HistoryOf(history, ep))
    {
      hide Shows, EntryPointOfKey, Ranked, Records, SizesClimb;
      var rank := ByRank(SetOf(queues, ep).all);
      AllRanked(Pool(db, queues), ep, held, sum, rank);
      assert Records(HistoryOf(history, ep), SetOf(queues, ep).all);
      RankIsArrivalIff(HistoryOf(history, ep), SetOf(queues, ep).all, rank);
      ops := Collect(SetOf(queues, ep).all, rank);
      ks := rank;
    }

    method Clear(stored: bool) returns (ok: bool)
      requires Valid()
      modifies this
      ensures Valid() && ok == stored && (!ok ==> db == old(db))
      ensures held == if ok then Held(map[], map[]) else old(held)
      ensures history == StepHistory(old(history), Action.Clear(stored), sum)
    {
      hide Shows, Recorded;
      if !stored {
        return false;
      }
      EmptyShows(sum);
      NothingRecorded();
      db, queues, held, history := map[], map[], NOTHING, map[];
      return true;
    }

    /** What a holder of the pooled object of this sender and nonce does by writing the other fields of `op` into it. */
    method Overwrite(ep: Address, op: UserOp)
      requires Valid()
      modifies this`queues, this`held
      ensures Valid() && db == old(db) && history == old(history)
      ensures var k := KeyOf(ep, op, sum);
        held == old(held).(live := if k in old(held).live then old(held).live[k := op] else old(held).live)
    {
      hide KeyOf, Shows, Recorded, Overwritten;
      ghost var a := Action.Overwrite(ep, op);
      StepRecords(Pool(db, queues), a, held, history, sum);
      OverwriteShows(Pool(db, queues), ep, op, held, sum);
      held := StepHeld(held, a, sum);
      queues := queues[ep := Overwritten(SetOf(queues, ep), KeyOf(ep, op, sum), op)];
    }
  }

  lemma LoadNothing(db: Database, sum: Checksum)
    ensures Load(db, [], sum) == Some(map[])
  {
  }

  method DeleteRecords(db: Database, ep: Address, ops: seq<UserOp>, sum: Checksum) returns (r: Database)
    ensures r == db - KeysOf(ep, ops, sum)
  {
    hide KeyOf;
    r := db;
    for i := 0 to |ops|
      invariant r == db - KeysOf(ep, ops[..i], sum)
    {
      r := r - {KeyOf(ep, ops[i], sum)};
      KeysOfNext(ep, ops, i, sum);
    }
    assert ops[..|ops|] == ops;
  }

  lemma KeysOfNext(ep: Address, ops: seq<UserOp>, i: nat, sum: Checksum)
    requires i < |ops|
    ensures KeysOf(ep, ops[..i + 1], sum) == KeysOf(ep, ops[..i], sum) + {KeyOf(ep, ops[i], sum)}
  {
    hide KeyOf;
    var a, b := ops[..i], ops[..i + 1];
    forall k | k in KeysOf(ep, b, sum)
      ensures k in KeysOf(ep, a, sum) + {KeyOf(ep, ops[i], sum)}
    {
      var j :| 0 <= j < |b| && k == KeyOf(ep, b[j], sum);
      assert j < i ==> a[j] == b[j];
    }
    forall k | k in KeysOf(ep, a, sum)
      ensures k in KeysOf(ep, b, sum)
    {
      var j :| 0 <= j < |a| && k == KeyOf(ep, a[j], sum);
      assert b[j] == a[j];
    }
    assert b[i] == ops[i];
  }

  method DeleteNodes(s: EntryPointSet, ep: Address, ops: seq<UserOp>, sum: Checksum) returns (r: EntryPointSet)
    ensures r == WithoutOps(s, ep, ops, sum)
  {
    hide KeyOf, WithoutKey;
    r := s;
    assert ops[0..] == ops;
    for i := 0 to |ops|
      invariant WithoutOps(r, ep, ops[i..], sum) == WithoutOps(s, ep, ops, sum)
    {
      assert ops[i..][1..] == ops[i + 1..];
      r := WithoutKey(r, KeyOf(ep, ops[i], sum), ops[i].sender);
    }
  }

  lemma AllRanked(p: Pool, ep: Address, c: Held, sum: Checksum, ks: seq<string>)
    requires Shows(p, c, sum) && Ranked(SetOf(p.queues, ep).all, ks)
    ensures forall k :: k in ks <==> k in c.live && EntryPointOfKey(k) == Some(ep)
    ensures forall k :: k in ks ==> k in SetOf(p.queues, ep).all && SetOf(p.queues, ep).all[k].op == c.live[k]
    ensures forall i, j :: 0 <= i < j < |ks| ==> ks[i] != ks[j]
  {
    hide EntryPointOfKey, Keyed, DbView, SenderView, TextLess;
    assert ep in p.queues ==> AllView(p.queues[ep], ep, c.live);
    RankedDistinct(SetOf(p.queues, ep).all, ks);
  }

  lemma SenderRanked(p: Pool, ep: Address, sender: Address, c: Held, sum: Checksum, ks: seq<string>)
    requires Shows(p, c, sum) && ep in p.queues && sender in p.queues[ep].senders
    requires Ranked(p.queues[ep].senders[sender], ks)
    ensures var mine := p.queues[ep].senders[sender];
      && (forall k :: k in ks <==> k in c.live && EntryPointOfKey(k) == Some(ep) && c.live[k].sender == sender)
      && (forall k :: k in ks ==> k in mine && mine[k].op == c.live[k])
      && (forall i, j :: 0 <= i < j < |ks| ==> ks[i] != ks[j] && Int64(c.live[ks[i]].nonce) <= Int64(c.live[ks[j]].nonce))
  {
    hide EntryPointOfKey, Keyed, DbView, TextLess, Int64;
    var s := p.queues[ep];
    assert AllView(s, ep, c.live) && SenderView(s);
    assert SenderHolds(s.senders[sender], s.all, sender);
    RankedDistinct(s.senders[sender], ks);
  }

  lemma RankedDistinct(m: SortedSet, ks: seq<string>)
    requires Ranked(m, ks)
    ensures forall i, j :: 0 <= i < j < |ks| ==> ks[i] != ks[j]
  {
    hide TextLess;
    forall i, j | 0 <= i < j < |ks|
      ensures ks[i] != ks[j]
    {
      NotLessThanItself(ks[i]);
      assert RanksBefore(m, ks[i], ks[j]);
    }
  }
}
