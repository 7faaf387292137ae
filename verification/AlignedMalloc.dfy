/** Aligned allocation: the bit tricks, and blocks whose header leads aligned_free back to their start. */
module AlignedMalloc {
  import opened Arithmetic

  type Addr = nat

  /** uintptr_t and size_t arithmetic is modulo this. */
  const RANGE: nat := 0x1_0000_0000_0000_0000
  const BITS: nat := 64

  function Pow2(k: nat): (r: nat)
    ensures r > 0
  {
    if k == 0 then 1 else 2 * Pow2(k - 1)
  }

  function And(a: nat, b: nat): nat {
    if a == 0 || b == 0 then 0 else 2 * And(a / 2, b / 2) + (a % 2) * (b % 2)
  }

  /** ~(alignment - 1) for a word of 64 bits. */
  function Mask(alignment: nat): nat
    requires 0 < alignment <= RANGE
  {
    RANGE - 1 - (alignment - 1)
  }

  predicate ValidAlignment(alignment: nat) {
    alignment != 0 && And(alignment, alignment - 1) == 0
  }

  function GetRightAlign(start: nat, alignment: nat): nat
    requires 0 < alignment <= RANGE
  {
    And((start + alignment - 1) % RANGE, Mask(alignment))
  }

  // ---- the mask test ----

  lemma {:induction false} AndSelf(a: nat)
    ensures And(a, a) == a
  {
    if a == 0 {
    } else {
      AndSelf(a / 2);
    }
  }

  lemma {:induction false} PowersPass(k: nat)
    ensures And(Pow2(k), Pow2(k) - 1) == 0
  {
    if k == 0 {
    } else {
      PowersPass(k - 1);
      var h := Pow2(k - 1);
      assert Pow2(k) / 2 == h && (Pow2(k) - 1) / 2 == h - 1 && Pow2(k) % 2 == 0;
    }
  }

  lemma {:induction false} PassersArePowers(a: nat) returns (k: nat)
    requires a > 0 && And(a, a - 1) == 0
    ensures a == Pow2(k)
  {
    if a == 1 {
      k := 0;
    } else if a % 2 == 1 {
      assert (a - 1) / 2 == a / 2;
      AndSelf(a / 2);
      assert false;
    } else {
      assert (a - 1) / 2 == a / 2 - 1;
      k := PassersArePowers(a / 2);
      k := k + 1;
    }
  }

  /** The mask test accepts exactly the powers of two. */
  lemma {:induction false} ValidIffPowerOfTwo(a: nat)
    ensures ValidAlignment(a) <==> exists k: nat :: a == Pow2(k)
  {
    if ValidAlignment(a) {
      var k := PassersArePowers(a);
      assert a == Pow2(k);
    }
    if exists k: nat :: a == Pow2(k) {
      var k: nat :| a == Pow2(k);
      PowersPass(k);
    }
  }

  // ---- the align expression ----

  lemma {:induction false} Pow2Monotone(j: nat, k: nat)
    requires j <= k
    ensures Pow2(j) <= Pow2(k)
  {
    if j < k {
      Pow2Monotone(j, k - 1);
    }
  }

  lemma {:induction false} AndOnes(x: nat, n: nat)
    requires x < Pow2(n)
    ensures And(x, Pow2(n) - 1) == x
  {
    if n == 0 {
    } else {
      AndOnes(x / 2, n - 1);
      assert (Pow2(n) - 1) / 2 == Pow2(n - 1) - 1 && (Pow2(n) - 1) % 2 == 1;
    }
  }

  lemma {:induction false} HalfRemainder(x: nat, m: nat)
    requires m > 0
    ensures x % (2 * m) == 2 * (x / 2 % m) + x % 2
  {
    var q, r := x / 2 / m, x / 2 % m;
    assert x / 2 == q * m + r;
    assert x == 2 * (q * m + r) + x % 2;
    Remainder(x, q, 2 * m, 2 * r + x % 2);
  }

  lemma {:induction false} Remainder(x: nat, q: nat, m: nat, r: nat)
    requires m > 0 && r < m && x == q * m + r
    ensures x % m == r
  {
    var q', r' := x / m, x % m;
    assert x == q' * m + r';
    assert (q + 1) * m == q * m + m && (q' + 1) * m == q' * m + m;
    CancelLess(q, q' + 1, m);
    CancelLess(q', q + 1, m);
  }

  /** Masking with ~(2^k - 1) rounds down to a multiple of 2^k. */
  lemma {:induction false} MaskRoundsDown(x: nat, n: nat, k: nat)
    requires k <= n && x < Pow2(n)
    ensures Pow2(k) <= Pow2(n) && And(x, Pow2(n) - Pow2(k)) == x - x % Pow2(k)
  {
    Pow2Monotone(k, n);
    if k == 0 {
      AndOnes(x, n);
    } else {
      MaskRoundsDown(x / 2, n - 1, k - 1);
      AndDouble(x, Pow2(n - 1) - Pow2(k - 1));
      RoundedTwice(x, Pow2(k - 1), And(x / 2, Pow2(n - 1) - Pow2(k - 1)));
    }
  }

  lemma {:induction false} RoundedTwice(x: nat, m: nat, half: nat)
    requires m > 0 && half == x / 2 - x / 2 % m
    ensures 2 * half == x - x % (2 * m)
  {
    HalfRemainder(x, m);
  }

  lemma {:induction false} AndDouble(x: nat, h: nat)
    ensures And(x, 2 * h) == 2 * And(x / 2, h)
  {
    if x > 0 && h > 0 {
      assert 2 * h / 2 == h && (2 * h) % 2 == 0;
    }
  }

  lemma {:induction false} RangeIsPower()
    ensures Pow2(BITS) == RANGE
  {
    assert Pow2(8) == 256;
    PowAdds(8, 8);
    PowAdds(16, 16);
    PowAdds(32, 32);
    assert Pow2(16) == 65536 && Pow2(32) == 65536 * 65536;
  }

  lemma {:induction false} Double(x: nat, y: nat)
    ensures 2 * (x * y) == x * (2 * y)
  {
  }

  lemma {:induction false} PowAdds(a: nat, b: nat)
    ensures Pow2(a + b) == Pow2(a) * Pow2(b)
  {
    if b == 0 {
    } else {
      PowAdds(a, b - 1);
      Double(Pow2(a), Pow2(b - 1));
    }
  }

  /** For a power of two below 2^64 the align expression rounds the wrapped sum down. */
  lemma {:induction false} AlignRoundsDown(start: nat, k: nat)
    requires k < BITS
    ensures Pow2(k) <= RANGE && GetRightAlign(start, Pow2(k)) ==
      (start + Pow2(k) - 1) % RANGE - (start + Pow2(k) - 1) % RANGE % Pow2(k)
  {
    RangeIsPower();
    MaskRoundsDown((start + Pow2(k) - 1) % RANGE, BITS, k);
  }

  ghost predicate IsLeastMultiple(r: nat, start: nat, a: nat)
    requires a > 0
  {
    r % a == 0 && start <= r && forall m: nat :: m % a == 0 && start <= m ==> r <= m
  }

  lemma {:induction false} AlignUnwrapped(start: nat, k: nat, a: nat)
    requires k < BITS && a == Pow2(k) && start + a - 1 < RANGE
    ensures GetRightAlign(start, a) == start + a - 1 - (start + a - 1) % a
  {
    AlignRoundsDown(start, k);
    Remainder(start + a - 1, 0, RANGE, start + a - 1);
  }

  lemma {:induction false} AlignWrapped(start: nat, k: nat, a: nat)
    requires start < RANGE && k < BITS && a == Pow2(k) && start + a - 1 >= RANGE
    ensures a <= RANGE && GetRightAlign(start, a) == 0
  {
    AlignRoundsDown(start, k);
    Remainder(start + a - 1, 1, RANGE, start + a - 1 - RANGE);
    Remainder(start + a - 1 - RANGE, 0, a, start + a - 1 - RANGE);
  }

  /** The align expression is the least multiple not below the address exactly when the sum does not wrap;
      when it wraps the result is 0. */
  lemma {:induction false} AlignIsLeastMultiple(start: nat, k: nat, a: nat)
    requires start < RANGE && k < BITS && a == Pow2(k)
    ensures a <= RANGE && (start + a - 1 < RANGE <==> IsLeastMultiple(GetRightAlign(start, a), start, a))
    ensures start + a - 1 < RANGE ==> GetRightAlign(start, a) < start + a
    ensures start + a - 1 >= RANGE ==> GetRightAlign(start, a) == 0
  {
    if start + a - 1 < RANGE {
      AlignUnwrapped(start, k, a);
      RoundedUp(start, a);
    } else {
      AlignWrapped(start, k, a);
    }
  }

  lemma {:induction false} RoundedUp(start: nat, a: nat)
    requires a > 0
    ensures var x := start + a - 1; var r := x - x % a;
      r >= 0 && r < start + a && IsLeastMultiple(r, start, a)
  {
    var x := start + a - 1;
    var q := x / a;
    assert x == q * a + x % a;
    Remainder(q * a, q, a, 0);
    forall m: nat | m % a == 0 && start <= m ensures q * a <= m {
      var p := m / a;
      assert m == p * a;
      assert (p + 1) * a == p * a + a;
      CancelLess(q, p + 1, a);
      Monotone(q, p, a);
    }
  }

  lemma {:induction false} SmallPower(k: nat)
    requires Pow2(k) < RANGE
    ensures k < BITS
  {
    RangeIsPower();
    if k >= BITS {
      Pow2Monotone(BITS, k);
    }
  }

  /** For an alignment that passes the test, aligning without wraparound. */
  lemma {:induction false} AlignFits(start: nat, alignment: nat)
    requires ValidAlignment(alignment) && alignment < RANGE && start + alignment - 1 < RANGE
    ensures var r := GetRightAlign(start, alignment);
      r % alignment == 0 && start <= r < start + alignment
  {
    var k := PassersArePowers(alignment);
    SmallPower(k);
    AlignIsLeastMultiple(start, k, alignment);
  }

  // ---- memory ----

  type Memory = map<Addr, nat>

  function ByteAt(mem: Memory, a: Addr): nat {
    if a in mem then mem[a] else 0
  }

  /** memcpy of the low `n` bytes of a word. */
  function Stored(mem: Memory, at: Addr, w: nat, n: nat): Memory
    decreases n
  {
    if n == 0 then mem else Stored(mem[at := w % 256], at + 1, w / 256, n - 1)
  }

  /** The word read back. */
  function Loaded(mem: Memory, at: Addr, n: nat): nat
    decreases n
  {
    if n == 0 then 0 else ByteAt(mem, at) + 256 * Loaded(mem, at + 1, n - 1)
  }

  lemma {:induction false} StoredElsewhere(mem: Memory, at: Addr, w: nat, n: nat, a: Addr)
    requires a < at || at + n <= a
    ensures ByteAt(Stored(mem, at, w, n), a) == ByteAt(mem, a)
    decreases n
  {
    if n == 0 {
    } else {
      StoredElsewhere(mem[at := w % 256], at + 1, w / 256, n - 1, a);
    }
  }

  lemma {:induction false} LoadedSame(mem: Memory, mem': Memory, at: Addr, n: nat)
    requires forall a :: at <= a < at + n ==> ByteAt(mem', a) == ByteAt(mem, a)
    ensures Loaded(mem', at, n) == Loaded(mem, at, n)
    decreases n
  {
    if n == 0 {
    } else {
      LoadedSame(mem, mem', at + 1, n - 1);
    }
  }

  lemma {:induction false} StoreThenLoad(mem: Memory, at: Addr, w: nat, n: nat)
    requires w < Pow2(8 * n)
    ensures Loaded(Stored(mem, at, w, n), at, n) == w
    decreases n
  {
    if n == 0 {
    } else {
      PowAdds(8 * n - 8, 8);
      assert Pow2(8) == 256 && 8 * n - 8 == 8 * (n - 1);
      var next := mem[at := w % 256];
      Quarter(w, Pow2(8 * (n - 1)));
      StoreThenLoad(next, at + 1, w / 256, n - 1);
      StoredElsewhere(next, at + 1, w / 256, n - 1, at);
    }
  }

  lemma {:induction false} Quarter(w: nat, p: nat)
    requires w < p * 256
    ensures w / 256 < p
  {
  }

  // ---- aligned blocks ----

  /** What aligned_malloc made of the malloc block that starts at its key. */
  datatype Block = Block(total: nat, aligned: Addr, size: nat)

  /** Header and payload lie one after the other inside the block. */
  predicate Placed(word: nat, m: Addr, b: Block) {
    0 < m && m + word <= b.aligned && b.aligned + b.size <= m + b.total <= RANGE
  }

  predicate Apart(m: Addr, size: nat, n: Addr, total: nat) {
    m + size <= n || n + total <= m
  }

  ghost predicate Sound(word: nat, memory: Memory, m: Addr, b: Block) {
    Placed(word, m, b) && Loaded(memory, b.aligned - word, word) == m
  }

  ghost predicate AllSound(word: nat, memory: Memory, blocks: map<Addr, Block>) {
    forall m :: m in blocks ==> Sound(word, memory, m, blocks[m])
  }

  ghost predicate Disjoint(blocks: map<Addr, Block>) {
    forall m, n :: m in blocks && n in blocks && m != n ==> Apart(m, blocks[m].total, n, blocks[n].total)
  }

  /** malloc may hand out the `size` bytes from `m` on. */
  ghost predicate Available(blocks: map<Addr, Block>, m: Addr, size: nat) {
    0 < m && m + size <= RANGE && m !in blocks && forall n :: n in blocks ==> Apart(m, size, n, blocks[n].total)
  }

  function Without(blocks: map<Addr, Block>, m: Addr): map<Addr, Block> {
    map n | n in blocks && n != m :: blocks[n]
  }

  /** Other blocks keep their bytes. */
  ghost predicate BytesKept(before: Memory, after: Memory, blocks: map<Addr, Block>) {
    forall n, a :: n in blocks && n <= a < n + blocks[n].total ==> ByteAt(after, a) == ByteAt(before, a)
  }

  class AlignedHeap {
    /** sizeof(uintptr_t). */
    const word: nat
    var memory: Memory
    var blocks: map<Addr, Block>
    ghost var freed: seq<Addr>

    ghost predicate Valid()
      reads this
    {
      Pow2(8 * word) == RANGE && AllSound(word, memory, blocks) && Disjoint(blocks)
    }

    constructor (word: nat)
      requires Pow2(8 * word) == RANGE
      ensures Valid() && blocks == map[] && freed == []
    {
      this.word := word;
      memory, blocks, freed := map[], map[], [];
    }

    /** aligned_malloc, where malloc's answer to the request is `m`. The size computation may wrap; then the
        payload sticks out of the block. */
    method Allocate(size: nat, alignment: nat, m: Addr) returns (p: Addr)
      requires Valid() && size < RANGE && alignment < RANGE
      requires size > 0 && ValidAlignment(alignment) ==> Available(blocks, m, Total(word, size, alignment))
      modifies this`memory, this`blocks
      ensures size == 0 || !ValidAlignment(alignment) ==> p == 0 && Valid() && memory == old(memory) && blocks == old(blocks)
      ensures size > 0 && ValidAlignment(alignment) ==> blocks == old(blocks)[m := Block(Total(word, size, alignment), p, size)]
      ensures size > 0 && ValidAlignment(alignment) && size + word + alignment - 1 < RANGE ==>
        Valid() && p != 0 && p % alignment == 0 && BytesKept(old(memory), memory, old(blocks))
      ensures size > 0 && ValidAlignment(alignment) && size + word + alignment - 1 >= RANGE ==>
        !Placed(word, m, blocks[m]) && !Valid()
    {
      if size == 0 {
        return 0;
      }
      if !ValidAlignment(alignment) {
        return 0;
      }
      Allocated(word, memory, blocks, size, alignment, m);
      var total := Total(word, size, alignment);
      p := PayloadStart(word, alignment, m);
      memory := Stored(memory, HeaderStart(word, p), m, word);
      blocks := blocks[m := Block(total, p, size)];
    }

    /** The owner of a block writes a byte of its payload. */
    method Write(m: Addr, i: nat, value: nat)
      requires Valid() && m in blocks && i < blocks[m].size
      modifies this`memory
      ensures Valid() && memory == old(memory)[blocks[m].aligned + i := value]
    {
      PayloadWrite(word, memory, blocks, m, i, value);
      memory := memory[blocks[m].aligned + i := value];
    }

    /** aligned_free: the header leads back to the exact address malloc returned for the block. */
    method Free(p: Addr, ghost m: Addr)
      requires Valid() && (p != 0 ==> m in blocks && blocks[m].aligned == p)
      modifies this`blocks, this`freed
      ensures Valid()
      ensures p == 0 ==> blocks == old(blocks) && freed == old(freed)
      ensures p != 0 ==> blocks == Without(old(blocks), m) && freed == old(freed) + [m]
    {
      if p == 0 {
        return;
      }
      HeaderNamesStart(word, memory, blocks, m);
      var header := p - word;
      var start := Loaded(memory, header, word);
      assert start == m;
      Removes(word, memory, blocks, m);
      blocks := Without(blocks, start);
      freed := freed + [start];
    }
  }

  lemma {:induction false} WordIsShort(word: nat)
    requires Pow2(8 * word) == RANGE
    ensures word <= RANGE / 2
  {
    PowExceeds(8 * word);
  }

  lemma {:induction false} PowExceeds(n: nat)
    ensures Pow2(n) > n
  {
    if n == 0 {
    } else {
      PowExceeds(n - 1);
    }
  }

  /** What malloc is asked for. */
  function Total(word: nat, size: nat, alignment: nat): nat
    requires alignment > 0
  {
    (size + word + alignment - 1) % RANGE
  }

  /** Where the payload goes in a block at `m`. */
  function PayloadStart(word: nat, alignment: nat, m: Addr): Addr
    requires 0 < alignment <= RANGE
  {
    GetRightAlign((m + word) % RANGE, alignment)
  }

  /** Where the header goes before a payload at `p`. */
  function HeaderStart(word: nat, p: Addr): Addr
    requires word <= RANGE
  {
    (p + RANGE - word) % RANGE
  }

  /** Without wraparound: where the payload and the header go. */
  lemma {:induction false} Fits(word: nat, size: nat, alignment: nat, m: Addr)
    requires word <= RANGE && size > 0 && ValidAlignment(alignment) && alignment < RANGE
    requires size + word + alignment - 1 < RANGE && 0 < m && m + size + word + alignment - 1 <= RANGE
    ensures Total(word, size, alignment) == size + word + alignment - 1
    ensures var p := PayloadStart(word, alignment, m);
      && p % alignment == 0 && m + word <= p && p + size <= m + size + word + alignment - 1
      && HeaderStart(word, p) == p - word
  {
    Remainder(size + word + alignment - 1, 0, RANGE, size + word + alignment - 1);
    Remainder(m + word, 0, RANGE, m + word);
    AlignFits(m + word, alignment);
    var p := PayloadStart(word, alignment, m);
    Remainder(p + RANGE - word, 1, RANGE, p - word);
  }

  lemma {:induction false} FitsIn(word: nat, memory: Memory, blocks: map<Addr, Block>, m: Addr, b: Block)
    requires Pow2(8 * word) == RANGE && AllSound(word, memory, blocks) && Disjoint(blocks) && Available(blocks, m, b.total)
    requires Placed(word, m, b) && m < RANGE
    ensures var after := Stored(memory, b.aligned - word, m, word);
      AllSound(word, after, blocks[m := b]) && Disjoint(blocks[m := b]) && BytesKept(memory, after, blocks)
  {
    StoreThenLoad(memory, b.aligned - word, m, word);
    KeepsOthers(word, memory, blocks, b.aligned - word, m, b.total);
    Adds(word, Stored(memory, b.aligned - word, m, word), blocks, m, b);
  }

  /** With wraparound the payload does not fit behind the start of the block. */
  lemma {:induction false} SticksOut(word: nat, size: nat, alignment: nat, m: Addr, p: Addr, memory: Memory, blocks: map<Addr, Block>)
    requires Pow2(8 * word) == RANGE && 0 < size < RANGE && ValidAlignment(alignment) && alignment < RANGE
    requires size + word + alignment - 1 >= RANGE
    ensures var b := Block(Total(word, size, alignment), p, size);
      !Placed(word, m, b) && !AllSound(word, memory, blocks[m := b])
  {
    WordIsShort(word);
    PayloadFitsIffNoWrap(word, size, alignment);
    var b := Block(Total(word, size, alignment), p, size);
    assert !Sound(word, memory, m, b);
    assert m in blocks[m := b] && blocks[m := b][m] == b;
  }

  /** The outcome of aligned_malloc for good arguments. */
  lemma {:induction false} Allocated(word: nat, memory: Memory, blocks: map<Addr, Block>, size: nat, alignment: nat, m: Addr)
    requires Pow2(8 * word) == RANGE && AllSound(word, memory, blocks) && Disjoint(blocks)
    requires 0 < size < RANGE && ValidAlignment(alignment) && alignment < RANGE
    requires Available(blocks, m, Total(word, size, alignment))
    ensures word <= RANGE
    ensures var p := PayloadStart(word, alignment, m);
      var b := Block(Total(word, size, alignment), p, size);
      var after := Stored(memory, HeaderStart(word, p), m, word);
      if size + word + alignment - 1 < RANGE then
        && AllSound(word, after, blocks[m := b]) && Disjoint(blocks[m := b]) && BytesKept(memory, after, blocks)
        && p != 0 && p % alignment == 0
      else !Placed(word, m, b) && !AllSound(word, after, blocks[m := b])
  {
    WordIsShort(word);
    var p := PayloadStart(word, alignment, m);
    var b := Block(Total(word, size, alignment), p, size);
    if size + word + alignment - 1 < RANGE {
      Remainder(size + word + alignment - 1, 0, RANGE, size + word + alignment - 1);
      Fits(word, size, alignment, m);
      FitsIn(word, memory, blocks, m, b);
    } else {
      SticksOut(word, size, alignment, m, p, Stored(memory, HeaderStart(word, p), m, word), blocks);
    }
  }

  lemma {:induction false} HeaderNamesStart(word: nat, memory: Memory, blocks: map<Addr, Block>, m: Addr)
    requires AllSound(word, memory, blocks) && m in blocks
    ensures blocks[m].aligned >= word && Loaded(memory, blocks[m].aligned - word, word) == m
  {
    assert Sound(word, memory, m, blocks[m]);
  }

  lemma {:induction false} Removes(word: nat, memory: Memory, blocks: map<Addr, Block>, m: Addr)
    requires AllSound(word, memory, blocks) && Disjoint(blocks)
    ensures AllSound(word, memory, Without(blocks, m)) && Disjoint(Without(blocks, m))
  {
  }

  lemma {:induction false} Adds(word: nat, memory: Memory, blocks: map<Addr, Block>, m: Addr, b: Block)
    requires AllSound(word, memory, blocks) && Disjoint(blocks) && Available(blocks, m, b.total) && Sound(word, memory, m, b)
    ensures AllSound(word, memory, blocks[m := b]) && Disjoint(blocks[m := b])
  {
    var more := blocks[m := b];
    forall x, y | x in more && y in more && x != y ensures Apart(x, more[x].total, y, more[y].total) {
      if x == m {
        assert Apart(m, b.total, y, blocks[y].total);
      } else if y == m {
        assert Apart(m, b.total, x, blocks[x].total);
      }
    }
  }

  lemma {:induction false} KeepsOthers(word: nat, memory: Memory, blocks: map<Addr, Block>, header: Addr, m: Addr, total: nat)
    requires m <= header && header + word <= m + total
    requires AllSound(word, memory, blocks) && forall n :: n in blocks ==> Apart(m, total, n, blocks[n].total)
    ensures AllSound(word, Stored(memory, header, m, word), blocks)
    ensures BytesKept(memory, Stored(memory, header, m, word), blocks)
  {
    var after := Stored(memory, header, m, word);
    forall a: Addr | a < header || header + word <= a ensures ByteAt(after, a) == ByteAt(memory, a) {
      StoredElsewhere(memory, header, m, word, a);
    }
    forall n | n in blocks ensures Sound(word, after, n, blocks[n]) {
      assert Sound(word, memory, n, blocks[n]) && Apart(m, total, n, blocks[n].total);
      LoadedSame(memory, after, blocks[n].aligned - word, word);
    }
  }

  lemma {:induction false} PayloadWrite(word: nat, memory: Memory, blocks: map<Addr, Block>, m: Addr, i: nat, value: nat)
    requires AllSound(word, memory, blocks) && Disjoint(blocks) && m in blocks && i < blocks[m].size
    ensures AllSound(word, memory[blocks[m].aligned + i := value], blocks)
  {
    var after := memory[blocks[m].aligned + i := value];
    assert Sound(word, memory, m, blocks[m]);
    forall n | n in blocks ensures Sound(word, after, n, blocks[n]) {
      assert Sound(word, memory, n, blocks[n]);
      assert n != m ==> Apart(n, blocks[n].total, m, blocks[m].total);
      LoadedSame(memory, after, blocks[n].aligned - word, word);
    }
  }

  /** Absent wraparound is exactly what it takes: if the size computation wraps, the block malloc is asked
      for is smaller than the payload. */
  lemma {:induction false} PayloadFitsIffNoWrap(word: nat, size: nat, alignment: nat)
    requires word <= RANGE / 2 && 0 < size < RANGE && ValidAlignment(alignment) && alignment < RANGE
    ensures size + word + alignment - 1 < RANGE <==> size <= Total(word, size, alignment)
  {
    var k := PassersArePowers(alignment);
    SmallPower(k);
    HalfRange(k);
    var t := size + word + alignment - 1;
    if t < RANGE {
      Remainder(t, 0, RANGE, t);
    } else {
      Remainder(t, 1, RANGE, t - RANGE);
    }
  }

  lemma {:induction false} HalfRange(k: nat)
    requires k < BITS
    ensures Pow2(k) <= RANGE / 2
  {
    RangeIsPower();
    Pow2Monotone(k, BITS - 1);
    assert Pow2(BITS) == 2 * Pow2(BITS - 1);
  }
}
