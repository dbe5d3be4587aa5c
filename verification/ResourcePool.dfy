/** The generational handle pool behind every public handle: slots are reused through a free list,
    a slot's generation goes up when the slot is reused (not when it is freed), and a handle is
    generation and index packed into 64 bits and scrambled with the pool's key. */
module ResourcePool {
  import opened Common
  import opened Words

  const INVALID: nat := 0

  // ---------------------------------------------------------------- handles

  function Raw(index: nat, generation: nat): nat {
    generation * TWO_32 + index
  }

  function Encrypt(value: nat, key: nat): nat {
    RotateLeft17(Xor(value, key))
  }

  function Decrypt(handle: nat, key: nat): nat {
    Xor(RotateRight17(handle), key)
  }

  /** What a handle stands for. */
  datatype Ticket = Ticket(index: nat, generation: nat)

  function Seal(k: Ticket, key: nat): nat {
    Encrypt(Raw(k.index, k.generation), key)
  }

  function Open(handle: nat, key: nat): Ticket {
    var raw := Decrypt(handle, key);
    Ticket(raw % TWO_32, raw / TWO_32)
  }

  predicate Small(k: Ticket) {
    k.index < TWO_32 && k.generation < TWO_32
  }

  lemma Decrypted(raw: nat, key: nat)
    requires raw < TWO_64 && key < TWO_64
    ensures Encrypt(raw, key) < TWO_64 && Decrypt(Encrypt(raw, key), key) == raw
  {
    Xor64(raw, key);
    RotateBack(Xor(raw, key));
    XorTwice(raw, key);
  }

  /** A handle is a 64-bit word from which index and generation can be read back. */
  lemma OpenSealed(k: Ticket, key: nat)
    requires Small(k) && key < TWO_64
    ensures Seal(k, key) < TWO_64 && Open(Seal(k, key), key) == k
  {
    var raw := Raw(k.index, k.generation);
    assert raw < TWO_64;
    DivModUnique(raw, TWO_32, k.generation, k.index);
    Decrypted(raw, key);
  }

  /** The handle is generation and index side by side, xored with the key and rotated left by 17 bits. */
  lemma SealedWord(k: Ticket, key: nat)
    requires Small(k) && key < TWO_64
    ensures var x := Xor(k.generation * 0x1_0000_0000 + k.index, key);
            Seal(k, key) == x % 0x8000_0000_0000 * 0x2_0000 + x / 0x8000_0000_0000
  {
    var x := Xor(Raw(k.index, k.generation), key);
    Xor64(Raw(k.index, k.generation), key);
    assert x * TWO_17 == x / TWO_47 * TWO_64 + x % TWO_47 * TWO_17;
  }

  /** Every 64-bit word is the handle of exactly one index and generation. */
  lemma SealOpened(h: nat, key: nat)
    requires h < TWO_64 && key < TWO_64
    ensures Small(Open(h, key)) && Seal(Open(h, key), key) == h
  {
    RotateForth(h);
    Xor64(RotateRight17(h), key);
    XorTwice(RotateRight17(h), key);
  }

  /** Each key turns exactly one ticket into the invalid handle. `GenerateKey` counts per kind of pool, so the only
      pool of its kind has the first key, 0xA5B35705F00DBAAD, and loses generation 0xA5B35705 of slot 0xF00DBAAD. */
  lemma InvalidTicket(k: Ticket, key: nat)
    requires Small(k) && key < TWO_64
    ensures Seal(k, key) == INVALID <==> k == Ticket(key % TWO_32, key / TWO_32)
  {
    XorZero(key);
    XorCommutes(0, key);
    OpenSealed(k, key);
    DivModUnique(key, TWO_32, key / TWO_32, key % TWO_32);
  }

  // ---------------------------------------------------------------- what each call does

  /** `empty` is the value-initialised resource a freed slot is left with. */
  datatype Pool<R> = Pool(resources: seq<R>, generations: seq<nat>, freelist: seq<nat>, key: nat, empty: R)

  datatype Allocation<R> = Allocation(pool: Pool<R>, handle: nat)

  function Create<R>(key: nat, empty: R): Pool<R> {
    Pool([empty], [1], [], key, empty)
  }

  ghost predicate Wellformed<R>(p: Pool<R>) {
    && |p.resources| == |p.generations| && p.key < TWO_64
    && (forall k :: 0 <= k < |p.freelist| ==> p.freelist[k] < |p.resources|)
  }

  function SlotFor<R>(p: Pool<R>): nat {
    if p.freelist == [] then |p.resources| else p.freelist[|p.freelist| - 1]
  }

  function Allocated<R>(p: Pool<R>, r: R): Pool<R>
    requires Wellformed(p)
  {
    if p.freelist == [] then
      p.(resources := p.resources + [r], generations := p.generations + [1])
    else
      var i := SlotFor(p);
      p.(freelist := p.freelist[..|p.freelist| - 1], resources := p.resources[i := r],
         generations := p.generations[i := (p.generations[i] + 1) % TWO_32])
  }

  function AfterAllocate<R>(p: Pool<R>, r: R): Allocation<R>
    requires Wellformed(p)
  {
    var q := Allocated(p, r);
    Allocation(q, Seal(Ticket(SlotFor(p) % TWO_32, q.generations[SlotFor(p)]), p.key))
  }

  function Alive<R>(p: Pool<R>, h: nat): bool
    requires Wellformed(p)
  {
    var k := Open(h, p.key);
    h != INVALID && k.index < |p.resources| && p.generations[k.index] == k.generation
  }

  function AfterFree<R>(p: Pool<R>, h: nat): Pool<R>
    requires Wellformed(p) && Alive(p, h)
  {
    var i := Open(h, p.key).index;
    p.(resources := p.resources[i := p.empty], freelist := p.freelist + [i])
  }

  function Lookup<R>(p: Pool<R>, h: nat): Option<R>
    requires Wellformed(p)
  {
    if Alive(p, h) then Some(p.resources[Open(h, p.key).index]) else None
  }

  /** The handle under which `ForEachAlive` shows slot `i`. */
  function HandleAt<R>(p: Pool<R>, i: nat): nat
    requires Wellformed(p) && i < |p.resources|
  {
    Seal(Ticket(i, p.generations[i]), p.key)
  }

  function Visits<R>(p: Pool<R>, n: nat): seq<(R, nat)>
    requires Wellformed(p) && n <= |p.resources|
  {
    if n <= 1 then []
    else if n - 1 in p.freelist then Visits(p, n - 1)
    else Visits(p, n - 1) + [(p.resources[n - 1], HandleAt(p, n - 1))]
  }

  // ---------------------------------------------------------------- the pool

  class ResourcePool<R> {
    var resources: seq<R>
    var generations: seq<nat>
    var freelist: seq<nat>
    const key: nat
    const empty: R

    ghost function View(): Pool<R>
      reads this
    {
      Pool(resources, generations, freelist, key, empty)
    }

    ghost predicate Valid()
      reads this
    {
      Wellformed(View())
    }

    constructor (key: nat, empty: R)
      requires key < TWO_64
      ensures Valid() && View() == Create(key, empty)
    {
      this.key, this.empty := key, empty;
      resources, generations, freelist := [empty], [1], [];
    }

    method Allocate(resource: R) returns (handle: nat)
      requires Valid()
      modifies this
      ensures Valid()
      ensures Allocation(View(), handle) == AfterAllocate(old(View()), resource)
    {
      var index: nat;
      if freelist == [] {
        index := |resources|;
        resources := resources + [resource];
        generations := generations + [1];
      } else {
        index := freelist[|freelist| - 1];
        freelist := freelist[..|freelist| - 1];
        resources := resources[index := resource];
        generations := generations[index := (generations[index] + 1) % TWO_32];
      }
      handle := Encrypt(generations[index] * TWO_32 + index % TWO_32, key);
    }

    /** `ResourcePool::free` asserts that the handle is valid and not stale, and clears the caller's copy. */
    method Free(handle: nat) returns (cleared: nat)
      requires Valid() && Alive(View(), handle)
      modifies this`resources, this`freelist
      ensures Valid() && View() == AfterFree(old(View()), handle) && cleared == INVALID
    {
      var raw := Decrypt(handle, key);
      var index := raw % TWO_32;
      cleared := INVALID;
      resources := resources[index := empty];
      freelist := freelist + [index];
    }

    method Get(handle: nat) returns (r: Option<R>)
      requires Valid()
      ensures r == Lookup(View(), handle)
    {
      if handle == INVALID {
        return None;
      }
      var raw := Decrypt(handle, key);
      var index, gen := raw % TWO_32, raw / TWO_32;
      if !(index < |resources| && generations[index] == gen) {
        return None;
      }
      return Some(resources[index]);
    }

    method IsAlive(handle: nat) returns (alive: bool)
      requires Valid()
      ensures alive == Alive(View(), handle)
    {
      if handle == INVALID {
        return false;
      }
      var raw := Decrypt(handle, key);
      var index, gen := raw % TWO_32, raw / TWO_32;
      return index < |resources| && generations[index] == gen;
    }

    /** The resources and handles the callback is given, in order. */
    method ForEachAlive() returns (visited: seq<(R, nat)>)
      requires Valid()
      ensures visited == Visits(View(), |resources|)
    {
      visited := [];
      var i := 1;
      while i < |resources|
        invariant 1 <= i && (|resources| > 0 ==> i <= |resources|)
        invariant i <= |resources| ==> visited == Visits(View(), i)
        invariant |resources| == 0 ==> visited == []
      {
        if i !in freelist {
          visited := visited + [(resources[i], Encrypt(generations[i] * TWO_32 + i, key))];
        }
        i := i + 1;
      }
    }

    method Clear()
      modifies this
      ensures View() == Create(key, empty)
    {
      resources, generations, freelist := [empty], [1], [];
    }
  }

  // ---------------------------------------------------------------- runs

  datatype Op<R> = AllocateOp(resource: R) | FreeOp(handle: nat)

  /** A pool since its creation or last `clear`, with what it has issued, in order, and the partial
      map its users think of: what is stored under each handle not freed yet. */
  datatype Track<R> = Track(pool: Pool<R>, issued: seq<Ticket>, live: map<Ticket, R>)
  {
    function Handle(n: nat): nat
      requires n < |issued|
    {
      Seal(issued[n], pool.key)
    }
  }

  function Start<R>(key: nat, empty: R): Track<R> {
    Track(Create(key, empty), [], map[])
  }

  function NextTicket<R>(p: Pool<R>): Ticket
    requires Wellformed(p)
  {
    if p.freelist == [] then Ticket(|p.resources|, 1)
    else Ticket(SlotFor(p), p.generations[SlotFor(p)] + 1)
  }

  /** Allocation wraps neither index nor generation and does not encode to the invalid handle; a
      handle is freed once, while it is live. */
  ghost predicate Clean<R>(t: Track<R>, op: Op<R>)
    requires Wellformed(t.pool)
  {
    match op
    case AllocateOp(_) => Small(NextTicket(t.pool)) && Seal(NextTicket(t.pool), t.pool.key) != INVALID
    case FreeOp(h) => h != INVALID && Open(h, t.pool.key) in t.live
  }

  ghost predicate Shape<R>(p: Pool<R>) {
    && Wellformed(p) && 1 <= |p.resources| <= TWO_32
    && (forall i :: 0 <= i < |p.generations| ==> 1 <= p.generations[i] < TWO_32)
    && (forall k :: 0 <= k < |p.freelist| ==> p.freelist[k] >= 1)
    && (forall j, k :: 0 <= j < k < |p.freelist| ==> p.freelist[j] != p.freelist[k])
  }

  /** The slots in use are exactly the live tickets, and hold what was stored under them. */
  ghost predicate Slots<R>(p: Pool<R>, live: map<Ticket, R>)
    requires Wellformed(p)
  {
    && (forall i :: 1 <= i < |p.resources| && i !in p.freelist ==>
          Ticket(i, p.generations[i]) in live && live[Ticket(i, p.generations[i])] == p.resources[i])
    && (forall k :: k in live ==> IsCurrent(p, k) && k.index !in p.freelist)
    && (forall i :: 0 <= i < |p.freelist| ==> p.resources[p.freelist[i]] == p.empty)
  }

  predicate IsCurrent<R>(p: Pool<R>, k: Ticket)
    requires |p.resources| == |p.generations|
  {
    1 <= k.index < |p.resources| && k.generation == p.generations[k.index]
  }

  /** Tickets are never issued twice, and the newest one of a slot has the slot's generation. */
  ghost predicate Issues<R>(t: Track<R>)
    requires Wellformed(t.pool)
  {
    var p := t.pool;
    && (forall n :: 0 <= n < |t.issued| ==> WasIssued(p, t.issued[n]) && Seal(t.issued[n], p.key) != INVALID)
    && (forall m, n :: 0 <= m < n < |t.issued| ==> t.issued[m] != t.issued[n])
    && (forall i :: 1 <= i < |p.resources| ==> Ticket(i, p.generations[i]) in t.issued)
  }

  predicate WasIssued<R>(p: Pool<R>, k: Ticket)
    requires |p.resources| == |p.generations|
  {
    1 <= k.index < |p.resources| && 1 <= k.generation <= p.generations[k.index]
  }

  ghost predicate Inv<R>(t: Track<R>) {
    Shape(t.pool) && Slots(t.pool, t.live) && Issues(t)
  }

  function Do<R>(t: Track<R>, op: Op<R>): Track<R>
    requires Inv(t) && Clean(t, op)
  {
    match op
    case AllocateOp(r) =>
      var k := NextTicket(t.pool);
      Track(Allocated(t.pool, r), t.issued + [k], t.live[k := r])
    case FreeOp(h) =>
      var k := Open(h, t.pool.key);
      Track(AfterFree(t.pool, h), t.issued, t.live - {k})
  }

  lemma StartInv<R>(key: nat, empty: R)
    requires key < TWO_64
    ensures Inv(Start(key, empty))
  {
  }

  /** The handle returned is the next ticket, sealed. */
  lemma AllocateReturnsNext<R>(p: Pool<R>, r: R)
    requires Wellformed(p) && Small(NextTicket(p))
    ensures AfterAllocate(p, r).handle == Seal(NextTicket(p), p.key)
  {
  }

  lemma AllocateReusesSlot<R>(p: Pool<R>, live: map<Ticket, R>, r: R)
    requires Shape(p) && Slots(p, live) && Small(NextTicket(p)) && p.freelist != []
    ensures Shape(Allocated(p, r)) && Slots(Allocated(p, r), live[NextTicket(p) := r])
  {
  }

  lemma NextIsIssued<R>(p: Pool<R>, r: R)
    requires Shape(p) && Small(NextTicket(p))
    ensures WasIssued(Allocated(p, r), NextTicket(p))
  {
  }

  lemma StaysIssued<R>(p: Pool<R>, r: R, k: Ticket)
    requires Shape(p) && Small(NextTicket(p)) && WasIssued(p, k)
    ensures WasIssued(Allocated(p, r), k) && k != NextTicket(p)
  {
  }

  lemma CurrentIsIssued<R>(p: Pool<R>, r: R, issued: seq<Ticket>, i: nat)
    requires Shape(p) && Small(NextTicket(p)) && 1 <= i < |Allocated(p, r).resources|
    requires i < |p.resources| ==> Ticket(i, p.generations[i]) in issued
    ensures Ticket(i, Allocated(p, r).generations[i]) in issued + [NextTicket(p)]
  {
  }

  lemma AllocateKeepsIssues<R>(t: Track<R>, r: R)
    requires Inv(t) && Clean(t, AllocateOp(r))
    ensures Issues(Do(t, AllocateOp(r)))
  {
    var t' := Do(t, AllocateOp(r));
    NextIsIssued(t.pool, r);
    forall n | 0 <= n < |t.issued| ensures WasIssued(t'.pool, t.issued[n]) && t.issued[n] != NextTicket(t.pool) {
      StaysIssued(t.pool, r, t.issued[n]);
    }
    forall i | 1 <= i < |t'.pool.resources| ensures Ticket(i, t'.pool.generations[i]) in t'.issued {
      CurrentIsIssued(t.pool, r, t.issued, i);
    }
  }

  /** `AfterFree`, in terms of the ticket. */
  function Freed<R>(p: Pool<R>, i: nat): Pool<R>
    requires i < |p.resources|
  {
    p.(resources := p.resources[i := p.empty], freelist := p.freelist + [i])
  }

  lemma FreeKeepsShape<R>(p: Pool<R>, live: map<Ticket, R>, k: Ticket)
    requires Shape(p) && Slots(p, live) && k in live
    ensures Shape(Freed(p, k.index)) && Slots(Freed(p, k.index), live - {k})
  {
    assert IsCurrent(p, k);
    var q := Freed(p, k.index);
    forall j: Ticket | j in live - {k} ensures IsCurrent(q, j) && j.index !in q.freelist {
      assert IsCurrent(p, j);
    }
  }

  lemma FreeKeepsInv<R>(t: Track<R>, h: nat)
    requires Inv(t) && Clean(t, FreeOp(h))
    ensures Inv(Do(t, FreeOp(h)))
  {
    var k := Open(h, t.pool.key);
    FreeKeepsShape(t.pool, t.live, k);
    assert Do(t, FreeOp(h)) == Track(Freed(t.pool, k.index), t.issued, t.live - {k});
  }

  lemma DoKeepsInv<R>(t: Track<R>, op: Op<R>)
    requires Inv(t) && Clean(t, op)
    ensures Inv(Do(t, op))
  {
    match op
    case AllocateOp(r) =>
      if t.pool.freelist != [] {
        AllocateReusesSlot(t.pool, t.live, r);
      }
      AllocateKeepsIssues(t, r);
    case FreeOp(h) => FreeKeepsInv(t, h);
  }

  ghost predicate CleanRun<R>(t: Track<R>, ops: seq<Op<R>>)
    requires Inv(t)
    decreases |ops|
  {
    ops == [] || (Clean(t, ops[0]) && (DoKeepsInv(t, ops[0]); CleanRun(Do(t, ops[0]), ops[1..])))
  }

  ghost function End<R>(t: Track<R>, ops: seq<Op<R>>): (e: Track<R>)
    requires Inv(t) && CleanRun(t, ops)
    ensures Inv(e)
    decreases |ops|
  {
    if ops == [] then t else (DoKeepsInv(t, ops[0]); End(Do(t, ops[0]), ops[1..]))
  }

  // ---------------------------------------------------------------- the pool is a partial map

  /** What every caller can rely on after a clean run: all handles issued so far differ and are valid;
      a live handle finds what was stored under it. */
  lemma PoolRefinesMap<R>(key: nat, empty: R, ops: seq<Op<R>>)
    requires key < TWO_64 && (StartInv(key, empty); CleanRun(Start(key, empty), ops))
    ensures var t := End(Start(key, empty), ops);
            && Inv(t) && t.pool.key == key
            && (forall m, n :: 0 <= m < n < |t.issued| ==> t.Handle(m) != t.Handle(n))
            && (forall n :: 0 <= n < |t.issued| ==> t.Handle(n) != INVALID)
            && (forall k :: k in t.live ==> Lookup(t.pool, Seal(k, key)) == Some(t.live[k]))
            && (forall k :: k in t.live ==> k in t.issued)
  {
    var t := End(Start(key, empty), ops);
    KeyStays(Start(key, empty), ops);
    forall m, n | 0 <= m < n < |t.issued| ensures t.Handle(m) != t.Handle(n) {
      IssuedOpens(t, m);
      IssuedOpens(t, n);
    }
    forall n | 0 <= n < |t.issued| ensures t.Handle(n) != INVALID {
      IssuedOpens(t, n);
    }
    forall k | k in t.live ensures k in t.issued && Lookup(t.pool, Seal(k, key)) == Some(t.live[k]) {
      LiveIsFound(t, k);
    }
  }

  lemma {:induction false} KeyStays<R>(t: Track<R>, ops: seq<Op<R>>)
    requires Inv(t) && CleanRun(t, ops)
    ensures End(t, ops).pool.key == t.pool.key
    decreases |ops|
  {
    if ops != [] {
      DoKeepsInv(t, ops[0]);
      KeyStays(Do(t, ops[0]), ops[1..]);
    }
  }

  lemma IssuedOpens<R>(t: Track<R>, n: nat)
    requires Inv(t) && n < |t.issued|
    ensures t.Handle(n) != INVALID && Open(t.Handle(n), t.pool.key) == t.issued[n]
  {
    assert WasIssued(t.pool, t.issued[n]);
    OpenSealed(t.issued[n], t.pool.key);
  }

  lemma LiveIsFound<R>(t: Track<R>, k: Ticket)
    requires Inv(t) && k in t.live
    ensures k in t.issued && Lookup(t.pool, Seal(k, t.pool.key)) == Some(t.live[k])
  {
    assert k == Ticket(k.index, t.pool.generations[k.index]);
    var n :| 0 <= n < |t.issued| && t.issued[n] == k;
    IssuedOpens(t, n);
  }

  lemma NextIsNew<R>(t: Track<R>)
    requires Inv(t)
    ensures NextTicket(t.pool) !in t.issued
  {
    forall n | 0 <= n < |t.issued| ensures t.issued[n] != NextTicket(t.pool) {
      assert WasIssued(t.pool, t.issued[n]);
    }
  }

  /** An issued handle is alive exactly while it is the newest of its slot. */
  lemma AliveMeansNewest<R>(t: Track<R>, n: nat)
    requires Inv(t) && n < |t.issued|
    ensures Alive(t.pool, t.Handle(n)) <==> IsCurrent(t.pool, t.issued[n])
  {
    IssuedOpens(t, n);
    assert WasIssued(t.pool, t.issued[n]);
  }

  predicate ReusesSlot<R>(t: Track<R>, op: Op<R>, i: nat)
    requires Wellformed(t.pool)
  {
    op.AllocateOp? && t.pool.freelist != [] && SlotFor(t.pool) == i
  }

  /** One call changes the liveness of an issued handle exactly when it reallocates its slot: that
      kills it; `free` does not, and nothing revives it. */
  lemma DiesWhenSlotIsReused<R>(t: Track<R>, op: Op<R>, n: nat)
    requires Inv(t) && Clean(t, op) && n < |t.issued|
    ensures Inv(Do(t, op)) && Do(t, op).Handle(n) == t.Handle(n)
    ensures Alive(Do(t, op).pool, t.Handle(n)) <==>
            Alive(t.pool, t.Handle(n)) && !ReusesSlot(t, op, t.issued[n].index)
  {
    DoKeepsInv(t, op);
    AliveMeansNewest(t, n);
    AliveMeansNewest(Do(t, op), n);
    assert WasIssued(t.pool, t.issued[n]);
  }

  /** So a freed handle stays alive, and finds the empty resource, until its slot is reused. */
  lemma FreedHandleFindsEmpty<R>(t: Track<R>, n: nat)
    requires Inv(t) && n < |t.issued| && IsCurrent(t.pool, t.issued[n]) && t.issued[n] !in t.live
    ensures Lookup(t.pool, t.Handle(n)) == Some(t.pool.empty)
  {
    AliveMeansNewest(t, n);
    IssuedOpens(t, n);
    var i := t.issued[n].index;
    assert Ticket(i, t.pool.generations[i]) == t.issued[n];
    var k :| 0 <= k < |t.pool.freelist| && t.pool.freelist[k] == i;
  }

  /** What an issued handle finds: what is stored under it while it is live, and after that nothing of use. */
  lemma IssuedFinds<R>(t: Track<R>, n: nat)
    requires Inv(t) && n < |t.issued|
    ensures t.Handle(n) != INVALID
    ensures t.issued[n] in t.live ==> Lookup(t.pool, t.Handle(n)) == Some(t.live[t.issued[n]])
    ensures t.issued[n] !in t.live ==> Lookup(t.pool, t.Handle(n)) in {Some(t.pool.empty), None}
  {
    IssuedOpens(t, n);
    AliveMeansNewest(t, n);
    if t.issued[n] in t.live {
      LiveIsFound(t, t.issued[n]);
    } else if IsCurrent(t.pool, t.issued[n]) {
      FreedHandleFindsEmpty(t, n);
    }
  }

  /** No later generation of the slot of `k` was issued. */
  predicate Latest(issued: seq<Ticket>, k: Ticket) {
    k in issued && forall j :: j in issued && j.index == k.index ==> j.generation <= k.generation
  }

  /** What `get` finds under any word: nothing under the invalid handle, and, slot 0 apart, something exactly under the
      latest handle issued for a slot: what is stored there, or the empty resource once it is freed. */
  lemma GetFindsExactly<R>(t: Track<R>, h: nat)
    requires Inv(t) && h < TWO_64
    ensures h == 0 ==> Lookup(t.pool, h) == None
    ensures var k := Open(h, t.pool.key);
            h != 0 && k.index != 0 ==>
              && (Lookup(t.pool, h).Some? <==> Latest(t.issued, k))
              && (k in t.live ==> Lookup(t.pool, h) == Some(t.live[k]))
              && (Latest(t.issued, k) && k !in t.live ==> Lookup(t.pool, h) == Some(t.pool.empty))
  {
    var k := Open(h, t.pool.key);
    if h != 0 && k.index != 0 {
      SealOpened(h, t.pool.key);
      LatestIsCurrent(t, k);
      if k in t.live {
        LiveIsFound(t, k);
      } else if Latest(t.issued, k) {
        var n :| 0 <= n < |t.issued| && t.issued[n] == k;
        FreedHandleFindsEmpty(t, n);
      }
    }
  }

  lemma LatestIsCurrent<R>(t: Track<R>, k: Ticket)
    requires Inv(t) && k.index != 0
    ensures Latest(t.issued, k) <==> IsCurrent(t.pool, k)
  {
    if Latest(t.issued, k) {
      var n :| 0 <= n < |t.issued| && t.issued[n] == k;
      assert WasIssued(t.pool, t.issued[n]);
      assert Ticket(k.index, t.pool.generations[k.index]) in t.issued;
    }
    if IsCurrent(t.pool, k) {
      assert k == Ticket(k.index, t.pool.generations[k.index]);
      forall j | j in t.issued && j.index == k.index ensures j.generation <= k.generation {
        var n :| 0 <= n < |t.issued| && t.issued[n] == j;
        assert WasIssued(t.pool, t.issued[n]);
      }
    }
  }

  /** The slot freed last is reused first, under its next generation; with none free a slot is added. */
  lemma FreedSlotIsReusedFirst<R>(t: Track<R>, h: nat, r: R)
    requires Inv(t) && Clean(t, FreeOp(h)) && Clean(Do(t, FreeOp(h)), AllocateOp(r))
    ensures var a := AfterAllocate(AfterFree(t.pool, h), r);
            var k := Open(h, t.pool.key);
            Wellformed(a.pool) && Open(a.handle, t.pool.key) == Ticket(k.index, k.generation + 1)
  {
    var u := Do(t, FreeOp(h));
    assert IsCurrent(t.pool, Open(h, t.pool.key));
    AllocateReturnsNext(u.pool, r);
    OpenSealed(NextTicket(u.pool), t.pool.key);
  }

  lemma NewSlotIsAppended<R>(t: Track<R>, r: R)
    requires Inv(t) && t.pool.freelist == [] && Clean(t, AllocateOp(r))
    ensures var a := AfterAllocate(t.pool, r);
            Wellformed(a.pool) && Open(a.handle, t.pool.key) == Ticket(|t.pool.resources|, 1)
  {
    AllocateReturnsNext(t.pool, r);
    OpenSealed(NextTicket(t.pool), t.pool.key);
  }

  /** What a reuse of slot `i` does. */
  lemma ReuseBumps<R>(p: Pool<R>, f: seq<nat>, i: nat, r: R)
    requires Wellformed(p) && p.freelist == f + [i] && i < TWO_32 && p.generations[i] < TWO_32
    ensures var q := Allocated(p, r);
            && Wellformed(q) && q.freelist == f && q.key == p.key
            && q.generations[i] != p.generations[i] && q.generations[i] < TWO_32
    ensures AfterAllocate(p, r) == Allocation(Allocated(p, r), Seal(Ticket(i, Allocated(p, r).generations[i]), p.key))
  {
    assert p.freelist[..|f|] == f && p.freelist[|f|] == i;
  }

  lemma OtherGenerationIsDead<R>(p: Pool<R>, i: nat, generation: nat)
    requires Wellformed(p) && i < |p.generations| && i < TWO_32 && generation < TWO_32
    requires p.generations[i] != generation
    ensures !Alive(p, Seal(Ticket(i, generation), p.key))
  {
    OpenSealed(Ticket(i, generation), p.key);
  }

  lemma ListedTwice<R>(q: Pool<R>, f: seq<nat>, i: nat, r: R, r': R)
    requires Wellformed(q) && q.freelist == f + [i] + [i] && i < TWO_32 && q.generations[i] < TWO_32
    ensures var a := AfterAllocate(q, r);
            Wellformed(a.pool) && !Alive(AfterAllocate(a.pool, r').pool, a.handle)
  {
    ReuseBumps(q, f + [i], i, r);
    var p := Allocated(q, r);
    ReuseBumps(p, f, i, r');
    OtherGenerationIsDead(Allocated(p, r'), i, p.generations[i]);
  }

  /** Freeing once is needed: a freed handle can be freed again, the slot is then handed out twice in
      a row, and the first of the two new handles is dead as soon as the second is issued. */
  lemma FreedTwiceIsShared<R>(p: Pool<R>, h: nat, r: R, r': R)
    requires Shape(p) && Alive(p, h)
    ensures Alive(AfterFree(p, h), h)
    ensures var a := AfterAllocate(AfterFree(AfterFree(p, h), h), r);
            Wellformed(a.pool) && !Alive(AfterAllocate(a.pool, r').pool, a.handle)
  {
    ListedTwice(AfterFree(AfterFree(p, h), h), p.freelist, Open(h, p.key).index, r, r');
  }

  /** The condition for a harmless free: it keeps the pool in shape exactly when the handle is live, that is,
      issued and not freed since. A handle freed before fails, and so does the never issued one of slot 0. */
  lemma FreeIsCleanExactly<R>(t: Track<R>, h: nat)
    requires Inv(t) && Alive(t.pool, h)
    ensures Shape(AfterFree(t.pool, h)) <==> Open(h, t.pool.key) in t.live
  {
    var k := Open(h, t.pool.key);
    if k in t.live {
      FreeKeepsInv(t, h);
    } else {
      var f := t.pool.freelist;
      var q := AfterFree(t.pool, h);
      assert q.freelist[|f|] == k.index;
      if k.index != 0 {
        var j :| 0 <= j < |f| && f[j] == k.index;
        assert q.freelist[j] == q.freelist[|f|];
      }
    }
  }

  /** Allocations one after the other. */
  function AllocateMany<R>(p: Pool<R>, rs: seq<R>): (q: Pool<R>)
    requires Wellformed(p)
    ensures Wellformed(q) && q.key == p.key && |q.resources| >= |p.resources|
    decreases |rs|
  {
    if rs == [] then p else AllocateMany(Allocated(p, rs[0]), rs[1..])
  }

  /** As many allocations as there are free slots reuse each of them once. */
  lemma {:induction false} EachFreeSlotIsReused<R>(p: Pool<R>, rs: seq<R>, i: nat)
    requires Wellformed(p) && |rs| == |p.freelist| && i < |p.generations| && p.generations[i] < TWO_32
    requires forall j, k :: 0 <= j < k < |p.freelist| ==> p.freelist[j] != p.freelist[k]
    ensures AllocateMany(p, rs).generations[i] ==
              if i in p.freelist then (p.generations[i] + 1) % TWO_32 else p.generations[i]
    decreases |rs|
  {
    if rs != [] {
      var last := SlotFor(p);
      EachFreeSlotIsReused(Allocated(p, rs[0]), rs[1..], i);
    }
  }

  lemma ListedAgainKills<R>(q: Pool<R>, f: seq<nat>, i: nat, r: R, rs: seq<R>)
    requires Wellformed(q) && q.freelist == f + [i] && i in f && i < |q.generations|
    requires i < TWO_32 && q.generations[i] < TWO_32
    requires |rs| == |f| && forall j, k :: 0 <= j < k < |f| ==> f[j] != f[k]
    ensures var a := AfterAllocate(q, r);
            Wellformed(a.pool) && !Alive(AllocateMany(a.pool, rs), a.handle)
  {
    ReuseBumps(q, f, i, r);
    var p := Allocated(q, r);
    EachFreeSlotIsReused(p, rs, i);
    OtherGenerationIsDead(AllocateMany(p, rs), i, p.generations[i]);
  }

  /** From any other free on, allocations alone kill a handle nobody freed: the next one takes the slot, and
      by the time the other free slots are used up it has been handed out again. */
  lemma UncleanFreeKills<R>(t: Track<R>, h: nat, r: R, rs: seq<R>)
    requires Inv(t) && Alive(t.pool, h) && Open(h, t.pool.key) !in t.live && Open(h, t.pool.key).index != 0
    requires |rs| == |t.pool.freelist|
    ensures var a := AfterAllocate(AfterFree(t.pool, h), r);
            Wellformed(a.pool) && !Alive(AllocateMany(a.pool, rs), a.handle)
  {
    ListedAgainKills(AfterFree(t.pool, h), t.pool.freelist, Open(h, t.pool.key).index, r, rs);
  }

  /** Once slot 0 is freed, the next handle issued is one `ForEachAlive` never visits. */
  lemma SlotZeroIsNeverVisited<R>(t: Track<R>, h: nat, r: R)
    requires Inv(t) && Alive(t.pool, h) && Open(h, t.pool.key).index == 0
    ensures var a := AfterAllocate(AfterFree(t.pool, h), r);
            && Wellformed(a.pool) && Open(a.handle, t.pool.key).index == 0
            && forall k :: k in VisitTickets(a.pool, |a.pool.resources|) ==> k.index != 0
  {
    var q := AfterFree(t.pool, h);
    ReuseBumps(q, t.pool.freelist, 0, r);
    var p := Allocated(q, r);
    OpenSealed(Ticket(0, p.generations[0]), p.key);
    VisitsInSlotOrder(p, |p.resources|);
    forall k | k in VisitTickets(p, |p.resources|) ensures k.index != 0 {
      var j :| 0 <= j < |VisitTickets(p, |p.resources|)| && VisitTickets(p, |p.resources|)[j] == k;
      assert IsCurrent(p, VisitTickets(p, |p.resources|)[j]);
    }
  }

  function VisitTickets<R>(p: Pool<R>, n: nat): seq<Ticket>
    requires Wellformed(p) && n <= |p.resources|
  {
    if n <= 1 then []
    else if n - 1 in p.freelist then VisitTickets(p, n - 1)
    else VisitTickets(p, n - 1) + [Ticket(n - 1, p.generations[n - 1])]
  }

  lemma {:induction false} VisitsInSlotOrder<R>(p: Pool<R>, n: nat)
    requires Wellformed(p) && n <= |p.resources|
    ensures var v := VisitTickets(p, n);
            && (forall j :: 0 <= j < |v| ==> IsCurrent(p, v[j]) && v[j].index < n && v[j].index !in p.freelist)
            && (forall i, j :: 0 <= i < j < |v| ==> v[i].index < v[j].index)
            && (forall i :: 1 <= i < n && i !in p.freelist ==> Ticket(i, p.generations[i]) in v)
  {
    if n > 1 {
      VisitsInSlotOrder(p, n - 1);
    }
  }

  lemma {:induction false} VisitsSealed<R>(p: Pool<R>, n: nat)
    requires Wellformed(p) && n <= |p.resources|
    ensures |Visits(p, n)| == |VisitTickets(p, n)|
    ensures forall j :: 0 <= j < |Visits(p, n)| ==>
              var k := VisitTickets(p, n)[j];
              k.index < |p.resources| && Visits(p, n)[j] == (p.resources[k.index], Seal(k, p.key))
  {
    if n > 1 {
      VisitsSealed(p, n - 1);
    }
  }

  /** `ForEachAlive` visits each live handle exactly once, in slot order, with the very handle
      `allocate` returned and what is stored under it, and visits nothing else. */
  lemma ForEachAliveVisitsLiveOnce<R>(t: Track<R>)
    requires Inv(t)
    ensures var v, ks := Visits(t.pool, |t.pool.resources|), VisitTickets(t.pool, |t.pool.resources|);
            && |v| == |ks|
            && (forall j :: 0 <= j < |v| ==> ks[j] in t.live && v[j] == (t.live[ks[j]], Seal(ks[j], t.pool.key)))
            && (forall k :: k in t.live ==> k in ks)
            && (forall i, j :: 0 <= i < j < |ks| ==> ks[i].index < ks[j].index)
  {
    var n := |t.pool.resources|;
    VisitsInSlotOrder(t.pool, n);
    VisitsSealed(t.pool, n);
    var ks := VisitTickets(t.pool, n);
    forall j | 0 <= j < |ks|
      ensures ks[j] in t.live && t.live[ks[j]] == t.pool.resources[ks[j].index]
    {
      assert ks[j] == Ticket(ks[j].index, t.pool.generations[ks[j].index]);
    }
    forall k | k in t.live ensures k in ks {
      assert k == Ticket(k.index, t.pool.generations[k.index]);
    }
  }
}
