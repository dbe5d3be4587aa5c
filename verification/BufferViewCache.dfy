/** The cache in front of buffer-view creation: views are keyed by a 64-bit multiplicative hash of
    their description alone, without comparing the descriptions. */
module BufferViewCache {
  import opened Common
  import opened Words
  import opened ResourcePool

  const OFFSET_BASIS: nat := 0xcbf2_9ce4_8422_2325
  const PRIME: nat := 0x100_0000_01b3
  const INVERSE: nat := 0xce96_5057_aff6_957b

  /** Buffer handle, offset and range are 64-bit words; range 0 stands for the rest of the buffer. */
  datatype Desc = Desc(buffer: nat, offset: nat, range: nat)

  predicate Words64(d: Desc) {
    d.buffer < TWO_64 && d.offset < TWO_64 && d.range < TWO_64
  }

  // ---------------------------------------------------------------- the hash

  function Mix(hash: nat, word: nat): nat {
    Xor(hash, word) * PRIME % TWO_64
  }

  function Hash(d: Desc): nat {
    Mix(Mix(Mix(OFFSET_BASIS, d.buffer), d.offset), d.range)
  }

  method ComputeBufferViewHash(desc: Desc) returns (hash: nat)
    ensures hash == Hash(desc) && hash < TWO_64
  {
    hash := OFFSET_BASIS;
    hash := Xor(hash, desc.buffer);
    hash := hash * PRIME % TWO_64;
    hash := Xor(hash, desc.offset);
    hash := hash * PRIME % TWO_64;
    hash := Xor(hash, desc.range);
    hash := hash * PRIME % TWO_64;
  }

  lemma MixSame(h: nat)
    ensures Mix(h, h) == 0
  {
    XorZero(h);
  }

  /** The hash starts from this word: as a buffer handle it cancels. */
  lemma BasisCancels(d: Desc)
    requires d.buffer == 0xcbf2_9ce4_8422_2325 && d.offset == 0 && d.range == 0
    ensures Hash(d) == 0
  {
    MixSame(d.buffer);
    MixSame(d.offset);
  }

  /** Mixing is injective in the hash so far and in the word mixed in. */
  lemma MixInjective(h: nat, h': nat, w: nat, w': nat)
    requires h < TWO_64 && h' < TWO_64 && w < TWO_64 && w' < TWO_64
    requires Mix(h, w) == Mix(h', w')
    ensures h == h' ==> w == w'
    ensures w == w' ==> h == h'
  {
    Xor64(h, w);
    Xor64(h', w');
    MultiplyInjective(Xor(h, w), Xor(h', w'), PRIME, INVERSE, 887285111055);
    if w == w' {
      XorInjective(h, h', w);
    } else if h == h' {
      XorCommutes(h, w);
      XorCommutes(h, w');
      XorInjective(w, w', h);
    }
  }

  predicate DifferInOne(d: Desc, e: Desc) {
    || (d.buffer != e.buffer && d.offset == e.offset && d.range == e.range)
    || (d.buffer == e.buffer && d.offset != e.offset && d.range == e.range)
    || (d.buffer == e.buffer && d.offset == e.offset && d.range != e.range)
  }

  /** Descriptions that differ in exactly one field never collide. */
  lemma OneFieldNeverCollides(d: Desc, e: Desc)
    requires Words64(d) && Words64(e) && DifferInOne(d, e)
    ensures Hash(d) != Hash(e)
  {
    if Hash(d) == Hash(e) {
      var h1, g1 := Mix(OFFSET_BASIS, d.buffer), Mix(OFFSET_BASIS, e.buffer);
      var h2, g2 := Mix(h1, d.offset), Mix(g1, e.offset);
      MixInjective(h2, g2, d.range, e.range);
      if d.range == e.range {
        MixInjective(h1, g1, d.offset, e.offset);
        if d.offset == e.offset {
          MixInjective(OFFSET_BASIS, OFFSET_BASIS, d.buffer, e.buffer);
        }
      }
    }
  }

  /** With two fields free they can: for any description and any other offset exactly one range collides. */
  lemma TwoFieldsCollideOnce(d: Desc, offset: nat) returns (range: nat)
    requires Words64(d) && offset < TWO_64
    ensures range < TWO_64 && Hash(d.(offset := offset, range := range)) == Hash(d)
    ensures forall other: nat :: other < TWO_64 && Hash(d.(offset := offset, range := other)) == Hash(d) ==>
              other == range
  {
    var h := Mix(Mix(OFFSET_BASIS, d.buffer), d.offset);
    var g := Mix(Mix(OFFSET_BASIS, d.buffer), offset);
    var x := Xor(h, d.range);
    Xor64(h, d.range);
    range := Xor(x, g);
    Xor64(x, g);
    XorTwice(x, g);
    XorCommutes(range, g);
    forall other: nat | other < TWO_64 && Hash(d.(offset := offset, range := other)) == Hash(d)
      ensures other == range
    {
      MixInjective(g, g, other, range);
    }
  }

  // ---------------------------------------------------------------- creating views

  /** A Vulkan buffer (0 is the null one) and its size. */
  datatype Buffer = Buffer(vkBuffer: nat, size: nat)

  /** What is stored of a description: offset and range are kept in 32 bits. */
  datatype View = View(buffer: nat, offset: nat, range: nat, hash: nat, isValid: bool)

  const NO_VIEW := View(0, 0, 0, 0, false)

  function ViewOf(d: Desc): View {
    View(d.buffer, d.offset % TWO_32, d.range % TWO_32, Hash(d), true)
  }

  /** A call, with the buffers alive at that time. */
  datatype Request = Request(buffers: map<nat, Buffer>, desc: Desc)

  predicate Accepted(r: Request) {
    var d := r.desc;
    && d.buffer != INVALID && d.buffer in r.buffers && r.buffers[d.buffer].vkBuffer != 0
    && (d.offset + d.range) % TWO_64 <= r.buffers[d.buffer].size
  }

  datatype State = State(pool: Pool<View>, cache: map<nat, nat>)

  datatype Answer = Answer(state: State, handle: nat)

  function After(s: State, r: Request): Answer
    requires Wellformed(s.pool)
  {
    if !Accepted(r) then Answer(s, INVALID)
    else if Hash(r.desc) in s.cache then Answer(s, s.cache[Hash(r.desc)])
    else
      var a := AfterAllocate(s.pool, ViewOf(r.desc));
      Answer(State(a.pool, s.cache[Hash(r.desc) := a.handle]), a.handle)
  }

  class BufferViews {
    const pool: ResourcePool<View>
    var cache: map<nat, nat>

    ghost function Contents(): State
      reads this, pool
    {
      State(pool.View(), cache)
    }

    constructor (pool: ResourcePool<View>)
      ensures this.pool == pool && cache == map[]
    {
      this.pool := pool;
      cache := map[];
    }

    method CreateBufferView(buffers: map<nat, Buffer>, desc: Desc) returns (handle: nat)
      requires pool.Valid()
      modifies this, pool
      ensures pool.Valid()
      ensures Answer(Contents(), handle) == After(old(Contents()), Request(buffers, desc))
    {
      if desc.buffer == INVALID {
        return INVALID;
      }
      if desc.buffer !in buffers {
        return INVALID;
      }
      var buffer := buffers[desc.buffer];
      if buffer.vkBuffer == 0 {
        return INVALID;
      }
      if (desc.offset + desc.range) % TWO_64 > buffer.size {
        return INVALID;
      }
      var hash := ComputeBufferViewHash(desc);
      if hash in cache {
        return cache[hash];
      }
      var bufferView := View(desc.buffer, desc.offset % TWO_32, desc.range % TWO_32, hash, true);
      handle := pool.Allocate(bufferView);
      cache := cache[hash := handle];
    }

    /** Frees the view's slot; the cache is left as it is. */
    method DestroyBufferView(handle: nat) returns (cleared: nat)
      requires pool.Valid() && Alive(pool.View(), handle)
      modifies pool
      ensures pool.Valid() && cleared == INVALID
      ensures Contents() == AfterDestroy(old(Contents()), handle)
    {
      cleared := pool.Free(handle);
    }
  }

  function AfterDestroy(s: State, handle: nat): State
    requires Wellformed(s.pool) && Alive(s.pool, handle)
  {
    s.(pool := AfterFree(s.pool, handle))
  }

  // ---------------------------------------------------------------- runs

  datatype Call = Create(request: Request) | Destroy(handle: nat)

  /** The cache and the view pool, with what the pool has issued and what is stored under handles not freed, and
      what each call has returned so far (a destruction leaves the invalid handle with its caller). */
  datatype Session = Session(track: Track<View>, cache: map<nat, nat>, answers: seq<nat>)
  {
    function Contents(): State {
      State(track.pool, cache)
    }
  }

  /** The pool's own conditions: a new view gets a slot and a generation below 2^32 and a valid handle, and a view
      is destroyed once. */
  ghost predicate CallClean(s: Session, c: Call)
    requires Wellformed(s.track.pool)
  {
    match c
    case Create(r) => Accepted(r) && Hash(r.desc) !in s.cache ==> Clean(s.track, AllocateOp(ViewOf(r.desc)))
    case Destroy(handle) => handle < TWO_64 && Clean(s.track, FreeOp(handle))
  }

  function Next(s: Session, c: Call): Session
    requires Inv(s.track) && CallClean(s, c)
  {
    match c
    case Create(r) =>
      var h := Hash(r.desc);
      if !Accepted(r) then s.(answers := s.answers + [INVALID])
      else if h in s.cache then s.(answers := s.answers + [s.cache[h]])
      else
        var handle := Seal(NextTicket(s.track.pool), s.track.pool.key);
        Session(Do(s.track, AllocateOp(ViewOf(r.desc))), s.cache[h := handle], s.answers + [handle])
    case Destroy(handle) => s.(track := Do(s.track, FreeOp(handle)), answers := s.answers + [INVALID])
  }

  /** A session goes the way of the two calls above. */
  lemma NextIsTheCall(s: Session, c: Call)
    requires Inv(s.track) && CallClean(s, c)
    ensures c.Create? ==>
              var t := Next(s, c);
              After(s.Contents(), c.request) == Answer(t.Contents(), t.answers[|s.answers|])
    ensures c.Destroy? ==>
              Alive(s.track.pool, c.handle) && Next(s, c).Contents() == AfterDestroy(s.Contents(), c.handle)
  {
    match c
    case Create(r) =>
      if Accepted(r) && Hash(r.desc) !in s.cache {
        AllocateReturnsNext(s.track.pool, ViewOf(r.desc));
      }
    case Destroy(handle) =>
  }

  /** The description under which each hash was first accepted. */
  function Made(cs: seq<Call>): map<nat, Desc> {
    if cs == [] then map[]
    else
      var made := Made(cs[..|cs| - 1]);
      match cs[|cs| - 1]
      case Create(r) => if Accepted(r) && Hash(r.desc) !in made then made[Hash(r.desc) := r.desc] else made
      case Destroy(_) => made
  }

  function Begin(key: nat): Session {
    Session(Start(key, NO_VIEW), map[], [])
  }

  ghost predicate CleanCalls(key: nat, cs: seq<Call>)
    requires key < TWO_64
    decreases |cs|, 0
  {
    cs == [] ||
    (CleanCalls(key, cs[..|cs| - 1]) && CallClean(Reached(key, cs[..|cs| - 1]), cs[|cs| - 1]))
  }

  /** The session after calls of both kinds in any order. */
  ghost function Reached(key: nat, cs: seq<Call>): (s: Session)
    requires key < TWO_64 && CleanCalls(key, cs)
    ensures Inv(s.track)
    decreases |cs|, 1
  {
    if cs == [] then StartInv(key, NO_VIEW); Begin(key)
    else
      var s, c := Reached(key, cs[..|cs| - 1]), cs[|cs| - 1];
      NextKeepsInv(s, c);
      Next(s, c)
  }

  lemma NextKeepsInv(s: Session, c: Call)
    requires Inv(s.track) && CallClean(s, c)
    ensures Inv(Next(s, c).track)
  {
    match c
    case Create(r) =>
      if Accepted(r) && Hash(r.desc) !in s.cache {
        DoKeepsInv(s.track, AllocateOp(ViewOf(r.desc)));
      }
    case Destroy(handle) => DoKeepsInv(s.track, FreeOp(handle));
  }

  // ---------------------------------------------------------------- what the cache holds

  /** The cached handle of hash `h` is an issued ticket: live until it is destroyed, and until then it stores the
      view made under `h`. */
  ghost predicate Keeps(s: Session, cs: seq<Call>, h: nat) {
    h in s.cache && h in Made(cs) &&
    var handle := s.cache[h];
    var k := Open(handle, s.track.pool.key);
    && k in s.track.issued && Seal(k, s.track.pool.key) == handle
    && (k in s.track.live <==> Destroy(handle) !in cs)
    && (k in s.track.live ==> s.track.live[k] == ViewOf(Made(cs)[h]))
  }

  predicate AcceptedAt(cs: seq<Call>, i: nat)
    requires i < |cs|
  {
    cs[i].Create? && Accepted(cs[i].request)
  }

  /** An accepted request was answered with what its hash leads to, and all other calls with the invalid handle. */
  predicate AnsweredAt(s: Session, cs: seq<Call>, i: nat)
    requires i < |cs| == |s.answers|
  {
    if AcceptedAt(cs, i) then
      Hash(cs[i].request.desc) in s.cache && s.answers[i] == s.cache[Hash(cs[i].request.desc)]
    else s.answers[i] == INVALID
  }

  ghost predicate Answers(s: Session, cs: seq<Call>) {
    |s.answers| == |cs| && forall i :: 0 <= i < |cs| ==> AnsweredAt(s, cs, i)
  }

  ghost predicate CacheInv(s: Session, cs: seq<Call>) {
    && s.track.pool.empty == NO_VIEW && s.cache.Keys == Made(cs).Keys
    && (forall h :: h in s.cache ==> Keeps(s, cs, h))
    && (forall g, h :: g in s.cache && h in s.cache && s.cache[g] == s.cache[h] ==> g == h)
    && (forall handle :: Destroy(handle) in cs ==> Open(handle, s.track.pool.key) in s.track.issued)
  }

  /** The pool of `t` is that of `s` with ticket `k` issued, and the cache leads from `d` to it. */
  predicate Creates(s: Session, t: Session, d: Desc, k: Ticket) {
    && t.track.pool.key == s.track.pool.key && t.track.pool.empty == s.track.pool.empty
    && t.track.issued == s.track.issued + [k] && t.track.live == s.track.live[k := ViewOf(d)]
    && t.cache == s.cache[Hash(d) := Seal(k, s.track.pool.key)]
  }

  predicate Destroys(s: Session, t: Session, handle: nat) {
    && t.track.pool.key == s.track.pool.key && t.track.pool.empty == s.track.pool.empty
    && t.track.issued == s.track.issued && t.cache == s.cache
    && t.track.live == s.track.live - {Open(handle, s.track.pool.key)}
  }

  lemma NextCreates(s: Session, r: Request)
    requires Inv(s.track) && CallClean(s, Create(r)) && Accepted(r) && Hash(r.desc) !in s.cache
    ensures Creates(s, Next(s, Create(r)), r.desc, NextTicket(s.track.pool))
  {
  }

  lemma NextDestroys(s: Session, handle: nat)
    requires Inv(s.track) && CallClean(s, Destroy(handle))
    ensures Destroys(s, Next(s, Destroy(handle)), handle)
  {
  }

  /** A handle with this ticket was never issued, so it is not cached and was not destroyed. */
  lemma NewHandle(s: Session, cs: seq<Call>, k: Ticket)
    requires CacheInv(s, cs) && k !in s.track.issued && Open(Seal(k, s.track.pool.key), s.track.pool.key) == k
    ensures Destroy(Seal(k, s.track.pool.key)) !in cs
    ensures forall h :: h in s.cache ==> s.cache[h] != Seal(k, s.track.pool.key)
  {
    forall h | h in s.cache ensures s.cache[h] != Seal(k, s.track.pool.key) {
      assert Keeps(s, cs, h);
    }
  }

  lemma Last(cs: seq<Call>)
    requires cs != []
    ensures forall x :: x in cs <==> x in cs[..|cs| - 1] || x == cs[|cs| - 1]
  {
    assert cs == cs[..|cs| - 1] + [cs[|cs| - 1]];
  }

  /** What the last call of `cs` leaves of an entry. */
  lemma KeepsOn(s: Session, t: Session, cs: seq<Call>, h: nat)
    requires cs != [] && Keeps(s, cs[..|cs| - 1], h)
    requires h in t.cache && t.cache[h] == s.cache[h] && t.track.pool.key == s.track.pool.key
    requires s.track.issued <= t.track.issued
    requires h in Made(cs) && Made(cs)[h] == Made(cs[..|cs| - 1])[h]
    requires var k := Open(s.cache[h], s.track.pool.key);
             && (k in t.track.live <==> k in s.track.live && cs[|cs| - 1] != Destroy(s.cache[h]))
             && (k in t.track.live ==> t.track.live[k] == s.track.live[k])
    ensures Keeps(t, cs, h)
  {
    Last(cs);
  }

  lemma CreatesKeeps(s: Session, t: Session, cs: seq<Call>, r: Request, k: Ticket, h: nat)
    requires cs != [] && cs[|cs| - 1] == Create(r) && CacheInv(s, cs[..|cs| - 1]) && Creates(s, t, r.desc, k)
    requires Accepted(r) && Hash(r.desc) !in s.cache
    requires k !in s.track.issued && Open(Seal(k, s.track.pool.key), s.track.pool.key) == k
    requires h in t.cache
    ensures Keeps(t, cs, h)
  {
    if h == Hash(r.desc) {
      Last(cs);
      NewHandle(s, cs[..|cs| - 1], k);
    } else {
      assert Keeps(s, cs[..|cs| - 1], h);
      KeepsOn(s, t, cs, h);
    }
  }

  lemma CreatesKeepsCacheInv(s: Session, t: Session, cs: seq<Call>, r: Request, k: Ticket)
    requires cs != [] && cs[|cs| - 1] == Create(r) && CacheInv(s, cs[..|cs| - 1]) && Creates(s, t, r.desc, k)
    requires Accepted(r) && Hash(r.desc) !in s.cache
    requires k !in s.track.issued && Open(Seal(k, s.track.pool.key), s.track.pool.key) == k
    ensures CacheInv(t, cs)
  {
    Last(cs);
    NewHandle(s, cs[..|cs| - 1], k);
    forall h | h in t.cache ensures Keeps(t, cs, h) {
      CreatesKeeps(s, t, cs, r, k, h);
    }
  }

  lemma DestroysKeepsCacheInv(s: Session, t: Session, cs: seq<Call>, handle: nat)
    requires cs != [] && cs[|cs| - 1] == Destroy(handle) && CacheInv(s, cs[..|cs| - 1]) && Destroys(s, t, handle)
    requires Open(handle, s.track.pool.key) in s.track.issued
    requires Seal(Open(handle, s.track.pool.key), s.track.pool.key) == handle
    ensures CacheInv(t, cs)
  {
    Last(cs);
    forall h | h in t.cache ensures Keeps(t, cs, h) {
      assert Keeps(s, cs[..|cs| - 1], h);
      KeepsOn(s, t, cs, h);
    }
  }

  lemma NothingKeepsCacheInv(s: Session, t: Session, cs: seq<Call>, r: Request)
    requires cs != [] && cs[|cs| - 1] == Create(r) && CacheInv(s, cs[..|cs| - 1])
    requires (!Accepted(r) || Hash(r.desc) in s.cache) && t.track == s.track && t.cache == s.cache
    ensures CacheInv(t, cs)
  {
    Last(cs);
    forall h | h in t.cache ensures Keeps(t, cs, h) {
      assert Keeps(s, cs[..|cs| - 1], h);
      KeepsOn(s, t, cs, h);
    }
  }

  lemma NextKeepsCacheInv(s: Session, t: Session, cs: seq<Call>)
    requires cs != [] && Inv(s.track) && CacheInv(s, cs[..|cs| - 1])
    requires CallClean(s, cs[|cs| - 1]) && t == Next(s, cs[|cs| - 1])
    ensures CacheInv(t, cs) && t.track.pool.key == s.track.pool.key
  {
    match cs[|cs| - 1]
    case Destroy(handle) =>
      NextDestroys(s, handle);
      SealOpened(handle, s.track.pool.key);
      LiveIsFound(s.track, Open(handle, s.track.pool.key));
      DestroysKeepsCacheInv(s, t, cs, handle);
    case Create(r) =>
      if Accepted(r) && Hash(r.desc) !in s.cache {
        var k := NextTicket(s.track.pool);
        NextCreates(s, r);
        NextIsNew(s.track);
        OpenSealed(k, s.track.pool.key);
        CreatesKeepsCacheInv(s, t, cs, r, k);
      } else {
        NothingKeepsCacheInv(s, t, cs, r);
      }
  }

  lemma NextAnswers(s: Session, t: Session, cs: seq<Call>)
    requires cs != [] && Inv(s.track) && Answers(s, cs[..|cs| - 1])
    requires CallClean(s, cs[|cs| - 1]) && t == Next(s, cs[|cs| - 1])
    ensures Answers(t, cs)
  {
    forall i | 0 <= i < |cs| ensures AnsweredAt(t, cs, i) {
      if i < |cs| - 1 {
        assert AnsweredAt(s, cs[..|cs| - 1], i);
      }
    }
  }

  lemma ReachedNext(key: nat, cs: seq<Call>)
    requires key < TWO_64 && CleanCalls(key, cs) && cs != []
    ensures var n := |cs| - 1;
            && CleanCalls(key, cs[..n]) && CallClean(Reached(key, cs[..n]), cs[n])
            && Reached(key, cs) == Next(Reached(key, cs[..n]), cs[n])
  {
  }

  /** The invariant at the end of a run, and where its key comes from. */
  ghost predicate Settled(key: nat, cs: seq<Call>)
    requires key < TWO_64 && CleanCalls(key, cs)
  {
    var s := Reached(key, cs);
    CacheInv(s, cs) && Answers(s, cs) && s.track.pool.key == key
  }

  lemma NothingSettled(key: nat)
    requires key < TWO_64
    ensures Settled(key, [])
  {
  }

  lemma NextSettled(key: nat, cs: seq<Call>)
    requires key < TWO_64 && CleanCalls(key, cs) && cs != [] && CleanCalls(key, cs[..|cs| - 1])
    requires Settled(key, cs[..|cs| - 1])
    ensures Settled(key, cs)
  {
    ReachedNext(key, cs);
    NextKeepsCacheInv(Reached(key, cs[..|cs| - 1]), Reached(key, cs), cs);
    NextAnswers(Reached(key, cs[..|cs| - 1]), Reached(key, cs), cs);
  }

  lemma {:induction false} ReachedSettled(key: nat, cs: seq<Call>)
    requires key < TWO_64 && CleanCalls(key, cs)
    ensures Settled(key, cs)
    decreases |cs|
  {
    if cs == [] {
      NothingSettled(key);
    } else {
      ReachedSettled(key, cs[..|cs| - 1]);
      NextSettled(key, cs);
    }
  }

  // ---------------------------------------------------------------- what a caller gets

  /** What call `i` of a run returned. */
  ghost function Returned(key: nat, cs: seq<Call>, i: nat): nat
    requires key < TWO_64 && CleanCalls(key, cs) && i < |cs|
  {
    ReachedSettled(key, cs);
    Reached(key, cs).answers[i]
  }

  /** What a handle finds at the end of a run. */
  ghost function Found(key: nat, cs: seq<Call>, handle: nat): Option<View>
    requires key < TWO_64 && CleanCalls(key, cs)
  {
    Lookup(Reached(key, cs).track.pool, handle)
  }

  /** What a cached handle finds. */
  lemma CachedFinds(s: Session, cs: seq<Call>, h: nat)
    requires Inv(s.track) && CacheInv(s, cs) && h in s.cache
    ensures h in Made(cs) && s.cache[h] != INVALID
    ensures Destroy(s.cache[h]) !in cs ==> Lookup(s.track.pool, s.cache[h]) == Some(ViewOf(Made(cs)[h]))
    ensures Destroy(s.cache[h]) in cs ==> Lookup(s.track.pool, s.cache[h]) in {Some(NO_VIEW), None}
  {
    assert Keeps(s, cs, h);
    var k := Open(s.cache[h], s.track.pool.key);
    var n :| 0 <= n < |s.track.issued| && s.track.issued[n] == k;
    IssuedFinds(s.track, n);
  }

  /** In any run of creations and destructions: a call returns a valid handle exactly when it is an accepted
      request. */
  lemma RejectedReturnsInvalid(key: nat, cs: seq<Call>, i: nat)
    requires key < TWO_64 && CleanCalls(key, cs) && i < |cs|
    ensures Returned(key, cs, i) == INVALID <==> !AcceptedAt(cs, i)
  {
    ReachedSettled(key, cs);
    assert AnsweredAt(Reached(key, cs), cs, i);
    if AcceptedAt(cs, i) {
      CachedFinds(Reached(key, cs), cs, Hash(cs[i].request.desc));
    }
  }

  /** The checks on a request, with the arithmetic of 64-bit words written out: the end of the view lies inside the
      buffer, or wraps around to something that does. */
  predicate Allowed(r: Request) {
    var d := r.desc;
    && d.buffer != 0 && d.buffer in r.buffers && r.buffers[d.buffer].vkBuffer != 0
    && var size := r.buffers[d.buffer].size;
       d.offset + d.range <= size || TWO_64 <= d.offset + d.range <= TWO_64 + size
  }

  /** Descriptions and sizes are 64-bit words. */
  predicate OfWords(c: Call) {
    c.Create? ==> Words64(c.request.desc) && forall b :: b in c.request.buffers ==> c.request.buffers[b].size < TWO_64
  }

  lemma AcceptedIsAllowed(r: Request)
    requires OfWords(Create(r))
    ensures Accepted(r) <==> Allowed(r)
  {
    ModOnce(r.desc.offset + r.desc.range, TWO_64);
  }

  /** In any run a call returns a valid handle exactly when it is an allowed request. */
  lemma ValidExactly(key: nat, cs: seq<Call>, i: nat)
    requires key < TWO_64 && CleanCalls(key, cs) && i < |cs| && OfWords(cs[i])
    ensures Returned(key, cs, i) != 0 <==> cs[i].Create? && Allowed(cs[i].request)
  {
    RejectedReturnsInvalid(key, cs, i);
    if cs[i].Create? {
      AcceptedIsAllowed(cs[i].request);
    }
  }

  /** So without wrap-around every view made lies inside its buffer. */
  lemma ViewsLieInside(key: nat, cs: seq<Call>, i: nat)
    requires key < TWO_64 && CleanCalls(key, cs) && i < |cs| && OfWords(cs[i]) && Returned(key, cs, i) != 0
    ensures cs[i].Create? && Allowed(cs[i].request)
    ensures var d, buffers := cs[i].request.desc, cs[i].request.buffers;
            d.offset + d.range < TWO_64 ==> d.offset + d.range <= buffers[d.buffer].size
  {
    ValidExactly(key, cs, i);
  }

  /** Two accepted requests get the same handle exactly when their descriptions have the same hash, whatever is
      created and destroyed in between. */
  lemma SameHandleSameHash(key: nat, cs: seq<Call>, i: nat, j: nat)
    requires key < TWO_64 && CleanCalls(key, cs)
    requires i < |cs| && j < |cs| && AcceptedAt(cs, i) && AcceptedAt(cs, j)
    ensures Returned(key, cs, i) == Returned(key, cs, j) <==>
            Hash(cs[i].request.desc) == Hash(cs[j].request.desc)
  {
    ReachedSettled(key, cs);
    assert AnsweredAt(Reached(key, cs), cs, i) && AnsweredAt(Reached(key, cs), cs, j);
  }

  /** What an accepted request returned finds its own view, as far as 32 bits hold it, if and only if nobody
      destroyed that handle and the hash was first used for the same stored view. A destroyed handle goes on being
      returned, and finds the empty view or none. */
  lemma FindsOwnViewExactly(key: nat, cs: seq<Call>, i: nat)
    requires key < TWO_64 && CleanCalls(key, cs) && i < |cs| && AcceptedAt(cs, i)
    ensures var d, handle := cs[i].request.desc, Returned(key, cs, i);
            && Hash(d) in Made(cs)
            && (Found(key, cs, handle) == Some(ViewOf(d)) <==>
                  Destroy(handle) !in cs && ViewOf(Made(cs)[Hash(d)]) == ViewOf(d))
            && (Destroy(handle) in cs ==> Found(key, cs, handle) in {Some(NO_VIEW), None})
            && (Destroy(handle) !in cs ==> Found(key, cs, handle) == Some(ViewOf(Made(cs)[Hash(d)])))
  {
    ReachedSettled(key, cs);
    assert AnsweredAt(Reached(key, cs), cs, i);
    CachedFinds(Reached(key, cs), cs, Hash(cs[i].request.desc));
  }

  /** A caller that destroys a view, asks for it again and destroys what it was given frees the slot a second time:
      the assertion in `free` lets it pass, and the free list then holds the slot twice. */
  lemma SecondDestroyBreaksThePool(key: nat, cs: seq<Call>, i: nat)
    requires key < TWO_64 && CleanCalls(key, cs) && i < |cs| && AcceptedAt(cs, i)
    requires Destroy(Returned(key, cs, i)) in cs
    ensures var pool, handle := Reached(key, cs).track.pool, Returned(key, cs, i);
            && (cs[|cs| - 1] == Destroy(handle) ==> Alive(pool, handle))
            && (Alive(pool, handle) ==> !Shape(AfterFree(pool, handle)))
  {
    var s, n, handle := Reached(key, cs), |cs| - 1, Returned(key, cs, i);
    ReachedSettled(key, cs);
    assert AnsweredAt(s, cs, i) && Keeps(s, cs, Hash(cs[i].request.desc));
    if cs[n] == Destroy(handle) {
      ReachedNext(key, cs);
      NextIsTheCall(Reached(key, cs[..n]), cs[n]);
    }
    if Alive(s.track.pool, handle) {
      FreeIsCleanExactly(s.track, handle);
    }
  }

  ghost predicate HashApart(cs: seq<Call>) {
    forall i, j :: 0 <= i < j < |cs| && AcceptedAt(cs, i) && AcceptedAt(cs, j) ==> ApartAt(cs[i].request, cs[j].request)
  }

  predicate ApartAt(r: Request, q: Request) {
    Hash(r.desc) == Hash(q.desc) ==> r.desc == q.desc
  }

  lemma HashTells(cs: seq<Call>, i: nat, j: nat)
    requires HashApart(cs) && i < |cs| && j < |cs| && AcceptedAt(cs, i) && AcceptedAt(cs, j)
    requires Hash(cs[i].request.desc) == Hash(cs[j].request.desc)
    ensures cs[i].request.desc == cs[j].request.desc
  {
    if i < j {
      assert ApartAt(cs[i].request, cs[j].request);
    } else if j < i {
      assert ApartAt(cs[j].request, cs[i].request);
    }
  }

  lemma {:induction false} MadeByRequest(cs: seq<Call>, h: nat) returns (i: nat)
    requires h in Made(cs)
    ensures i < |cs| && AcceptedAt(cs, i) && cs[i].request.desc == Made(cs)[h] && Hash(Made(cs)[h]) == h
  {
    var n := |cs| - 1;
    if h in Made(cs[..n]) {
      i := MadeByRequest(cs[..n], h);
      assert AcceptedAt(cs, i);
    } else {
      i := n;
    }
  }

  /** When the descriptions hash apart the cache is a memo table, destructions included: equal descriptions get the
      same handle and unequal ones different handles, and a handle finds the view of its own description exactly
      until it is destroyed. */
  lemma CacheIsMemoTable(key: nat, cs: seq<Call>, i: nat, j: nat)
    requires key < TWO_64 && CleanCalls(key, cs) && HashApart(cs)
    requires i < |cs| && j < |cs| && AcceptedAt(cs, i) && AcceptedAt(cs, j)
    ensures Returned(key, cs, i) == Returned(key, cs, j) <==> cs[i].request.desc == cs[j].request.desc
    ensures Found(key, cs, Returned(key, cs, i)) == Some(ViewOf(cs[i].request.desc)) <==>
            Destroy(Returned(key, cs, i)) !in cs
  {
    SameHandleSameHash(key, cs, i, j);
    if Hash(cs[i].request.desc) == Hash(cs[j].request.desc) {
      HashTells(cs, i, j);
    }
    FindsOwnViewExactly(key, cs, i);
    var m := MadeByRequest(cs, Hash(cs[i].request.desc));
    HashTells(cs, m, i);
  }

  lemma Fits32(x: nat)
    ensures x % TWO_32 == x <==> x < TWO_32
  {
  }

  /** When the descriptions hash apart, the view a handle finds covers the range asked for exactly when the handle was
      not destroyed and offset and range fit in 32 bits. */
  lemma FoundViewIsRequested(key: nat, cs: seq<Call>, i: nat)
    requires key < TWO_64 && CleanCalls(key, cs) && HashApart(cs) && i < |cs| && AcceptedAt(cs, i)
    ensures var d, handle := cs[i].request.desc, Returned(key, cs, i);
            (exists v :: Found(key, cs, handle) == Some(v) &&
               v == View(d.buffer, d.offset, d.range, Hash(d), true)) <==>
            Destroy(handle) !in cs && d.offset < TWO_32 && d.range < TWO_32
  {
    CacheIsMemoTable(key, cs, i, i);
    FindsOwnViewExactly(key, cs, i);
    Fits32(cs[i].request.desc.offset);
    Fits32(cs[i].request.desc.range);
  }

  // ---------------------------------------------------------------- a collision for every buffer

  /** What the buffer handle leaves of the hash. */
  function Mixed(buffer: nat): nat {
    Mix(OFFSET_BASIS, buffer)
  }

  /** `g` with its bits 24 and 25 replaced by those of `y`. */
  function Turned(g: nat, y: nat): nat {
    (g / TWO_24 - g / TWO_24 % 4 + y) * TWO_24 + g % TWO_24
  }

  /** The offset that turns `g` so. */
  function OffsetTo(g: nat, y: nat): nat {
    Xor(g / TWO_24, g / TWO_24 - g / TWO_24 % 4 + y) * TWO_24
  }

  lemma TurnedBits(a: nat, y: nat)
    requires y < 4
    ensures Xor(a, a - a % 4 + y) <= 3 && Xor(a, Xor(a, a - a % 4 + y)) == a - a % 4 + y
  {
    var b := a - a % 4 + y;
    assert Power2(2) == 2 * Power2(1) == 4 && a / 4 == b / 4;
    SharedHigh(a, b, 2);
    XorCommutes(a, b);
    XorTwice(b, a);
    XorCommutes(a, Xor(a, b));
  }

  lemma OffsetTurns(g: nat, y: nat)
    requires y < 4
    ensures Xor(g, OffsetTo(g, y)) == Turned(g, y) && OffsetTo(g, y) <= 3 * TWO_24
  {
    PowerOf24();
    TurnedBits(g / TWO_24, y);
    TurnedWord(g / TWO_24, g / TWO_24 - g / TWO_24 % 4 + y, g % TWO_24, 24);
  }

  lemma TurnedWord(a: nat, b: nat, low: nat, n: nat)
    requires Xor(a, Xor(a, b)) == b && low < TWO_24 == Power2(n)
    ensures Xor(a * TWO_24 + low, Xor(a, b) * TWO_24) == b * TWO_24 + low
  {
    XorShifted(a, Xor(a, b), low, n);
    ShiftBy24(a, n);
    ShiftBy24(b, n);
    ShiftBy24(Xor(a, b), n);
  }

  lemma ShiftBy24(a: nat, n: nat)
    requires Power2(n) == TWO_24
    ensures Shift(a, n) == a * TWO_24
  {
    ShiftMultiplies(a, n);
  }

  /** The word the range is mixed into, for that offset. */
  function Leaves(buffer: nat, y: nat): nat {
    Turned(Mixed(buffer), y) * PRIME % TWO_64
  }

  /** What one step of `y` adds: 2^24 times the multiplier's low part. */
  const STEP: nat := 0x1_b300_0000

  lemma OneTurn(x: nat)
    ensures (x + TWO_24) * PRIME % TWO_64 == (x * PRIME % TWO_64 + STEP) % TWO_64
  {
    assert (x + TWO_24) * PRIME == x * PRIME + STEP + TWO_64;
    AddModulo(x * PRIME, STEP);
  }

  lemma AddModulo(p: nat, step: nat)
    ensures (p + step + TWO_64) % TWO_64 == (p % TWO_64 + step) % TWO_64
  {
  }

  lemma LeavesNext(buffer: nat, y: nat)
    ensures Leaves(buffer, y + 1) == (Leaves(buffer, y) + STEP) % TWO_64
  {
    OneTurn(Turned(Mixed(buffer), y));
    NextTurned(Mixed(buffer) / TWO_24, y, Mixed(buffer) % TWO_24);
  }

  lemma NextTurned(a: nat, y: nat, low: nat)
    ensures (a - a % 4 + (y + 1)) * TWO_24 + low == (a - a % 4 + y) * TWO_24 + low + TWO_24
  {
  }

  /** Two steps are less than 2^34, so one of them stays below bit 34. */
  lemma NeighboursAgree(m: nat)
    requires m < TWO_64
    ensures var n := (m + STEP) % TWO_64;
            m / TWO_34 == n / TWO_34 || n / TWO_34 == (n + STEP) % TWO_64 / TWO_34
  {
  }

  /** The step that does. */
  function Pick(buffer: nat): nat {
    if Leaves(buffer, 0) / TWO_34 == Leaves(buffer, 1) / TWO_34 then 0 else 1
  }

  /** Two views of a buffer: the second range makes up for the other offset. */
  function Near(buffer: nat, range: nat): Desc {
    Desc(buffer, OffsetTo(Mixed(buffer), Pick(buffer)), range)
  }

  function Far(buffer: nat, range: nat): Desc {
    Desc(buffer, OffsetTo(Mixed(buffer), Pick(buffer) + 1), Xor(range, Difference(buffer)))
  }

  function Difference(buffer: nat): nat {
    Xor(Leaves(buffer, Pick(buffer)), Leaves(buffer, Pick(buffer) + 1))
  }

  lemma DifferenceIsSmall(buffer: nat)
    ensures Difference(buffer) < TWO_34
  {
    LeavesNext(buffer, 0);
    LeavesNext(buffer, 1);
    NeighboursAgree(Leaves(buffer, 0));
    PowerOf34();
    SharedHigh(Leaves(buffer, Pick(buffer)), Leaves(buffer, Pick(buffer) + 1), 34);
  }

  lemma HashOf(buffer: nat, y: nat, range: nat)
    requires y < 4
    ensures Hash(Desc(buffer, OffsetTo(Mixed(buffer), y), range)) == Mix(Leaves(buffer, y), range)
  {
    OffsetTurns(Mixed(buffer), y);
  }

  /** Every buffer has colliding views: whatever the range of the first, the second starts elsewhere in the first
      64 MB and is less than 2^34 bytes longer. */
  lemma EveryBufferCollides(buffer: nat, range: nat)
    ensures Hash(Near(buffer, range)) == Hash(Far(buffer, range))
    ensures Near(buffer, range).offset != Far(buffer, range).offset
    ensures Near(buffer, range).offset <= 3 * TWO_24 && Far(buffer, range).offset <= 3 * TWO_24
    ensures Far(buffer, range).range < range + TWO_34
  {
    var g, y := Mixed(buffer), Pick(buffer);
    HashOf(buffer, y, range);
    HashOf(buffer, y + 1, Far(buffer, range).range);
    XorMakesUp(Leaves(buffer, y), Leaves(buffer, y + 1), range);
    OffsetTurns(g, y);
    OffsetTurns(g, y + 1);
    assert Turned(g, y) != Turned(g, y + 1);
    DifferenceIsSmall(buffer);
    XorAtMostSum(range, Difference(buffer));
  }

  lemma BothAccepted(buffers: map<nat, Buffer>, buffer: nat, range: nat)
    requires buffer != INVALID && buffer in buffers && buffers[buffer].vkBuffer != 0
    requires range + 0x4_0300_0000 <= buffers[buffer].size < TWO_64
    ensures Accepted(Request(buffers, Near(buffer, range))) && Accepted(Request(buffers, Far(buffer, range)))
  {
    EveryBufferCollides(buffer, range);
    SmallMod(Near(buffer, range).offset + range, TWO_64);
    SmallMod(Far(buffer, range).offset + Far(buffer, range).range, TWO_64);
  }

  lemma ViewsDiffer(buffer: nat, range: nat)
    ensures Hash(Near(buffer, range)) == Hash(Far(buffer, range))
    ensures ViewOf(Near(buffer, range)) != ViewOf(Far(buffer, range))
  {
    EveryBufferCollides(buffer, range);
    SmallMod(Near(buffer, range).offset, TWO_32);
    SmallMod(Far(buffer, range).offset, TWO_32);
  }

  /** For every live buffer of some 16 GB more than `range`, in any run: two requests for different views of it are
      accepted and get the same handle, so that at most one of them finds its own. */
  lemma CollisionIsAccepted(key: nat, cs: seq<Call>, i: nat, j: nat, buffers: map<nat, Buffer>, buffer: nat, range: nat)
    requires buffer != INVALID && buffer in buffers && buffers[buffer].vkBuffer != 0
    requires range + 0x4_0300_0000 <= buffers[buffer].size < TWO_64
    requires key < TWO_64 && CleanCalls(key, cs) && i < |cs| && j < |cs|
    requires cs[i] == Create(Request(buffers, Near(buffer, range)))
    requires cs[j] == Create(Request(buffers, Far(buffer, range)))
    ensures AcceptedAt(cs, i) && AcceptedAt(cs, j) && cs[i].request.desc != cs[j].request.desc
    ensures Returned(key, cs, i) == Returned(key, cs, j) != INVALID
    ensures ViewOf(cs[i].request.desc) != ViewOf(cs[j].request.desc)
  {
    ViewsDiffer(buffer, range);
    BothAccepted(buffers, buffer, range);
    SameHandleSameHash(key, cs, i, j);
    RejectedReturnsInvalid(key, cs, i);
  }

  /** Such requests can be made after any run with room for one more view. */
  lemma CollisionCanFollow(key: nat, cs: seq<Call>, buffers: map<nat, Buffer>, buffer: nat, range: nat)
    requires buffer != INVALID && buffer in buffers && buffers[buffer].vkBuffer != 0
    requires range + 0x4_0300_0000 <= buffers[buffer].size < TWO_64
    requires key < TWO_64 && CleanCalls(key, cs)
    requires Clean(Reached(key, cs).track, AllocateOp(ViewOf(Near(buffer, range))))
    ensures var near, far := Create(Request(buffers, Near(buffer, range))), Create(Request(buffers, Far(buffer, range)));
            CleanCalls(key, cs + [near]) && CleanCalls(key, cs + [near] + [far])
  {
    var near, far := Request(buffers, Near(buffer, range)), Request(buffers, Far(buffer, range));
    EveryBufferCollides(buffer, range);
    BothAccepted(buffers, buffer, range);
    assert (cs + [Create(near)])[..|cs|] == cs;
    assert CallClean(Reached(key, cs), Create(near));
    var t := Reached(key, cs + [Create(near)]);
    ReachedSettled(key, cs + [Create(near)]);
    assert AnsweredAt(t, cs + [Create(near)], |cs|);
    assert CallClean(t, Create(far));
    assert (cs + [Create(near)] + [Create(far)])[..|cs| + 1] == cs + [Create(near)];
  }
}
