/** How often the accesses of the programs that add two vectors miss in a direct-mapped cache. */
module AddMisses {
  import opened Types
  import opened Isa
  import opened PipelineRefinement
  import opened PipelineSpacing
  import opened ProgramFlow
  import opened AddPrograms
  import opened AddResults
  import opened AddRuns
  import opened AddTiming
  import opened SimulatorLocality
  import MissCounts

  /** The vectors begin at the same index, the first below address 0x1000, the second below 0x2000, the sums behind. */
  predicate Aligned(job: Job) {
    && Sensible(job) && job.base % 0x100 == 0 && job.half % 0x80 == 0
    && job.base + 4 * job.rounds <= 0x1000 <= SecondVector(job) && SecondVector(job) + 4 * job.rounds <= 0x2000
  }

  /** Nothing, or a block of sums. */
  predicate Cold(r: Option<Tag>) { r == None || r.value >= 32 }

  /** After n instructions: what is resident at index q, that there are only sums elsewhere from index `from` on, and
      how many loads and stores have missed. */
  ghost predicate After(prog: Program, s0: Machine, n: nat, from: nat, q: Index, r: Option<Tag>, loads: nat,
                        stores: nat)
  {
    && (forall j: Index :: j != q && j >= from ==> Cold(Resident(prog, s0, n, j)))
    && Resident(prog, s0, n, q) == r && Misses(prog, s0, n, false) == loads && Misses(prog, s0, n, true) == stores
  }

  lemma ResidentNext(prog: Program, s0: Machine, n: nat, j: Index)
    ensures Resident(prog, s0, n + 1, j) ==
      if IsMemory(Nth(prog, s0, n).opcode) && IndexOf(AccessAt(prog, s0, n)) == j then
        Some(TagOf(AccessAt(prog, s0, n)))
      else Resident(prog, s0, n, j)
  {
  }

  lemma MissesNext(prog: Program, s0: Machine, n: nat, store: bool)
    ensures Misses(prog, s0, n + 1, store) == Misses(prog, s0, n, store)
      + MissCounts.One(Nth(prog, s0, n).opcode == (if store then SW else LW) && !Found(prog, s0, n))
  {
  }

  lemma Accessed(prog: Program, s0: Machine, n: nat, from: nat, q: Index, r: Option<Tag>, loads: nat, stores: nat,
                 t: Tag)
    requires After(prog, s0, n, from, q, r, loads, stores) && IsMemory(Nth(prog, s0, n).opcode)
    requires IndexOf(AccessAt(prog, s0, n)) == q && TagOf(AccessAt(prog, s0, n)) == t
    ensures var miss, load := r != Some(t), Nth(prog, s0, n).opcode == LW;
      After(prog, s0, n + 1, from, q, Some(t), loads + MissCounts.One(miss && load),
            stores + MissCounts.One(miss && !load))
  {
    hide Nth, AccessAt, IndexOf, TagOf;
    var m := n + 1;
    MissesNext(prog, s0, n, false);
    MissesNext(prog, s0, n, true);
    forall j: Index
      ensures Resident(prog, s0, m, j) == if j == q then Some(t) else Resident(prog, s0, n, j)
    {
      ResidentNext(prog, s0, n, j);
    }
    assert forall j: Index :: j != q && j >= from ==> Cold(Resident(prog, s0, m, j));
  }

  lemma Passed(prog: Program, s0: Machine, n: nat, from: nat, q: Index, r: Option<Tag>, loads: nat, stores: nat)
    requires After(prog, s0, n, from, q, r, loads, stores) && !IsMemory(Nth(prog, s0, n).opcode)
    ensures After(prog, s0, n + 1, from, q, r, loads, stores)
  {
    hide Nth, AccessAt, IndexOf, TagOf;
    var m := n + 1;
    MissesNext(prog, s0, n, false);
    MissesNext(prog, s0, n, true);
    forall j: Index
      ensures Resident(prog, s0, m, j) == Resident(prog, s0, n, j)
    {
      ResidentNext(prog, s0, n, j);
    }
    assert forall j: Index :: j != q && j >= from ==> Cold(Resident(prog, s0, m, j));
  }

  // ----- the accesses of a round -----

  lemma LoadAt(prog: Program, job: Job, s0: Machine, k: nat, x: nat)
    requires AddProgram(prog, job) && Sensible(job) && Begins(s0) && k < job.rounds && x < 8
    ensures Nth(prog, s0, 22 * k + 6 + x).opcode == LW
    ensures AccessAt(prog, s0, 22 * k + 6 + x) == WordAt(job, k, x) < 0x10_0000
  {
    hide AddProgram, Added, Step, SumAt;
    var n := 22 * k + 6 + x;
    RoundPlace(job, k, x);
    AlwaysStands(prog, job, s0, n);
    RoundCode(prog, job, s0, k, x);
    AddAccess(prog, job, s0, n);
    LoopLoads(prog, job, Steps(prog, s0, n), s0.mem, k, 6 + x);
  }

  lemma RoundPlace(job: Job, k: nat, j: nat)
    requires k < job.rounds && j < 22
    ensures PlaceOf(job, 22 * k + 6 + j) == (k, 6 + j)
  {
    assert (22 * k + j) / 22 == k && (22 * k + j) % 22 == j;
  }

  lemma StoreAt(prog: Program, job: Job, s0: Machine, k: nat, a: nat)
    requires AddProgram(prog, job) && Sensible(job) && Begins(s0) && k < job.rounds && StoresAt(a)
    ensures Nth(prog, s0, 22 * k + a).opcode == SW
    ensures AccessAt(prog, s0, 22 * k + a) == SumVector(job) + 4 * k + StoredBy(a) < 0x10_0000
  {
    hide AddProgram, PlaceOf;
    RoundPlace(job, k, a - 6);
    StoreOf(prog, job, s0, 22 * k + a);
    WhereIs(prog, job, s0, 22 * k + a);
    AddAccess(prog, job, s0, 22 * k + a);
  }

  predicate Plain(a: nat) { 14 <= a <= 27 && !StoresAt(a) }

  lemma OtherAt(prog: Program, job: Job, s0: Machine, k: nat, a: nat)
    requires AddProgram(prog, job) && Sensible(job) && Begins(s0) && k < job.rounds
    requires Plain(a)
    ensures !IsMemory(Nth(prog, s0, 22 * k + a).opcode)
  {
    hide AddProgram, PlaceOf;
    RoundPlace(job, k, a - 6);
    WhereIs(prog, job, s0, 22 * k + a);
    AddAccess(prog, job, s0, 22 * k + a);
  }

  lemma BlockFields(u: nat, k: nat, x: nat)
    requires u < 0x100 && k < 0x400 && x < 4
    ensures var a := 256 * u + 4 * k + x; a < 0x10_0000 && IndexOf(a) == k % 64 && TagOf(a) == u + k / 64
  {
    var a := 256 * u + 4 * k + x;
    assert a / 4 == 64 * u + k;
    assert a / 256 == a / 4 / 64;
  }

  /** The three blocks of a round have the same index and different tags. */
  lemma RoundFields(job: Job, k: nat, x: nat)
    requires Aligned(job) && k < job.rounds && x < 4
    ensures var (a, b, c) := (job.base + 4 * k + x, SecondVector(job) + 4 * k + x, SumVector(job) + 4 * k + x);
      && a < 0x10_0000 && b < 0x10_0000 && c < 0x10_0000
      && IndexOf(a) == IndexOf(b) == IndexOf(c) == k % 64
      && TagOf(a) == job.base / 256 + k / 64 < 16 && 16 <= TagOf(b) == job.half / 128 + k / 64 < 32
      && TagOf(c) == job.half / 128 + 16 + k / 64 >= 32
  {
    assert job.base == 256 * (job.base / 256) && SecondVector(job) == 256 * (job.half / 128);
    assert SumVector(job) == 256 * (job.half / 128 + 16);
    BlockFields(job.base / 256, k, x);
    BlockFields(job.half / 128, k, x);
    BlockFields(job.half / 128 + 16, k, x);
  }

  // ----- a round -----

  predicate LoadsBlock(prog: Program, s0: Machine, x: nat, q: Index, t: Tag) {
    Nth(prog, s0, x).opcode == LW && IndexOf(AccessAt(prog, s0, x)) == q && TagOf(AccessAt(prog, s0, x)) == t
  }

  /** Four loads from a block that is not resident. */
  lemma FourLoads(prog: Program, s0: Machine, n: nat, from: nat, q: Index, r: Option<Tag>, loads: nat, stores: nat,
                  t: Tag)
    requires After(prog, s0, n, from, q, r, loads, stores) && r != Some(t)
    requires forall x: nat :: n <= x < n + 4 ==> LoadsBlock(prog, s0, x, q, t)
    ensures After(prog, s0, n + 4, from, q, Some(t), loads + 1, stores)
  {
    hide After, Nth, AccessAt, IndexOf, TagOf;
    assert LoadsBlock(prog, s0, n, q, t) && LoadsBlock(prog, s0, n + 1, q, t);
    assert LoadsBlock(prog, s0, n + 2, q, t) && LoadsBlock(prog, s0, n + 3, q, t);
    Accessed(prog, s0, n, from, q, r, loads, stores, t);
    Accessed(prog, s0, n + 1, from, q, Some(t), loads + 1, stores, t);
    Accessed(prog, s0, n + 2, from, q, Some(t), loads + 1, stores, t);
    Accessed(prog, s0, n + 3, from, q, Some(t), loads + 1, stores, t);
  }

  /** The eight loads of a round miss twice. */
  lemma RoundLoads(prog: Program, job: Job, s0: Machine, k: nat, r: Option<Tag>, loads: nat, stores: nat)
    requires AddProgram(prog, job) && Aligned(job) && Begins(s0) && k < job.rounds && Cold(r)
    requires After(prog, s0, 22 * k + 6, 0, k % 64, r, loads, stores)
    ensures After(prog, s0, 22 * k + 14, 0, k % 64, Some(job.half / 128 + k / 64), loads + 2, stores)
  {
    hide AddProgram, Begins, After, Nth, AccessAt, IndexOf, TagOf, PlaceOf;
    var n, q, a, b := 22 * k + 6, k % 64, job.base / 256 + k / 64, job.half / 128 + k / 64;
    RoundFields(job, k, 0);
    forall x: nat | n <= x < n + 4
      ensures LoadsBlock(prog, s0, x, q, a)
    {
      LoadAt(prog, job, s0, k, x - n);
      RoundFields(job, k, x - n);
    }
    forall x: nat | n + 4 <= x < n + 8
      ensures LoadsBlock(prog, s0, x, q, b)
    {
      LoadAt(prog, job, s0, k, x - n);
      RoundFields(job, k, x - n - 4);
    }
    FourLoads(prog, s0, n, 0, q, r, loads, stores, a);
    FourLoads(prog, s0, n + 4, 0, q, Some(a), loads + 1, stores, b);
  }

  lemma RoundStore(prog: Program, job: Job, s0: Machine, k: nat, a: nat, r: Option<Tag>, loads: nat, stores: nat)
    requires AddProgram(prog, job) && Aligned(job) && Begins(s0) && k < job.rounds && StoresAt(a)
    requires After(prog, s0, 22 * k + a, 0, k % 64, r, loads, stores)
    ensures var t := job.half / 128 + 16 + k / 64;
      After(prog, s0, 22 * k + a + 1, 0, k % 64, Some(t), loads, stores + MissCounts.One(r != Some(t)))
  {
    hide AddProgram, Begins, After, Nth, AccessAt, IndexOf, TagOf;
    StoreAt(prog, job, s0, k, a);
    RoundFields(job, k, StoredBy(a));
    Accessed(prog, s0, 22 * k + a, 0, k % 64, r, loads, stores, job.half / 128 + 16 + k / 64);
  }

  lemma {:induction false} RoundPasses(prog: Program, job: Job, s0: Machine, k: nat, a: nat, len: nat,
                                       r: Option<Tag>, loads: nat, stores: nat)
    requires AddProgram(prog, job) && Aligned(job) && Begins(s0) && k < job.rounds
    requires forall x: nat :: a <= x < a + len ==> Plain(x)
    requires After(prog, s0, 22 * k + a, 0, k % 64, r, loads, stores)
    ensures After(prog, s0, 22 * k + a + len, 0, k % 64, r, loads, stores)
    decreases len
  {
    hide AddProgram, Begins, After, Nth, AccessAt, IndexOf, TagOf;
    if len > 0 {
      OtherAt(prog, job, s0, k, a);
      Passed(prog, s0, 22 * k + a, 0, k % 64, r, loads, stores);
      RoundPasses(prog, job, s0, k, a + 1, len - 1, r, loads, stores);
    }
  }

  /** Of its four stores the first one misses. */
  lemma RoundMisses(prog: Program, job: Job, s0: Machine, k: nat, r: Option<Tag>, loads: nat, stores: nat)
    requires AddProgram(prog, job) && Aligned(job) && Begins(s0) && k < job.rounds && Cold(r)
    requires After(prog, s0, 22 * k + 6, 0, k % 64, r, loads, stores)
    ensures After(prog, s0, 22 * k + 28, 0, k % 64, Some(job.half / 128 + 16 + k / 64), loads + 2, stores + 1)
  {
    hide AddProgram, Begins, After;
    var b, c := Some(job.half / 128 + k / 64), Some(job.half / 128 + 16 + k / 64);
    RoundFields(job, k, 0);
    RoundLoads(prog, job, s0, k, r, loads, stores);
    RoundPasses(prog, job, s0, k, 14, 2, b, loads + 2, stores);
    RoundStore(prog, job, s0, k, 16, b, loads + 2, stores);
    RoundStore(prog, job, s0, k, 17, c, loads + 2, stores + 1);
    RoundPasses(prog, job, s0, k, 18, 2, c, loads + 2, stores + 1);
    RoundStore(prog, job, s0, k, 20, c, loads + 2, stores + 1);
    RoundStore(prog, job, s0, k, 21, c, loads + 2, stores + 1);
    RoundPasses(prog, job, s0, k, 22, 6, c, loads + 2, stores + 1);
  }

  // ----- the whole run -----

  /** There are only sums from index k on, and so many misses so far. */
  ghost predicate ColdFrom(prog: Program, s0: Machine, n: nat, k: nat, loads: nat, stores: nat) {
    && (forall j: Index :: j >= k ==> Cold(Resident(prog, s0, n, j)))
    && Misses(prog, s0, n, false) == loads && Misses(prog, s0, n, true) == stores
  }

  lemma {:induction false} ColdPasses(prog: Program, s0: Machine, n: nat, k: nat, loads: nat, stores: nat, len: nat)
    requires ColdFrom(prog, s0, n, k, loads, stores)
    requires forall x: nat :: n <= x < n + len ==> !IsMemory(Nth(prog, s0, x).opcode)
    ensures ColdFrom(prog, s0, n + len, k, loads, stores)
    decreases len
  {
    hide Nth, AccessAt, IndexOf, TagOf;
    if len > 0 {
      var m := n + 1;
      MissesNext(prog, s0, n, false);
      MissesNext(prog, s0, n, true);
      forall j: Index
        ensures Resident(prog, s0, m, j) == Resident(prog, s0, n, j)
      {
        ResidentNext(prog, s0, n, j);
      }
      assert forall j: Index :: j >= k ==> Cold(Resident(prog, s0, m, j));
      ColdPasses(prog, s0, m, k, loads, stores, len - 1);
    }
  }

  lemma CodePasses(prog: Program, job: Job, s0: Machine, n: nat)
    requires AddProgram(prog, job) && Sensible(job) && Begins(s0)
    requires !StoresAt(PlaceOf(job, n).1) && !LoadsAt(PlaceOf(job, n).1)
    ensures !IsMemory(Nth(prog, s0, n).opcode)
  {
    hide AddProgram, PlaceOf;
    WhereIs(prog, job, s0, n);
    AddAccess(prog, job, s0, n);
  }

  /** Each round of the first loop misses with two loads and a store. */
  lemma {:induction false} RoundsMiss(prog: Program, job: Job, s0: Machine, k: nat)
    requires AddProgram(prog, job) && Aligned(job) && Begins(s0) && k <= job.rounds
    ensures ColdFrom(prog, s0, 22 * k + 6, 0, 2 * k, k)
  {
    hide AddProgram, Begins;
    if k == 0 {
      forall n: nat | n < 6
        ensures !IsMemory(Nth(prog, s0, n).opcode)
      {
        CodePasses(prog, job, s0, n);
      }
      ColdPasses(prog, s0, 0, 0, 0, 0, 6);
    } else {
      RoundsMiss(prog, job, s0, k - 1);
      var n, q := 22 * (k - 1) + 6, (k - 1) % 64;
      RoundFields(job, k - 1, 0);
      RoundMisses(prog, job, s0, k - 1, Resident(prog, s0, n, q), 2 * (k - 1), k - 1);
    }
  }

  lemma SweepAt(prog: Program, job: Job, s0: Machine, k: nat)
    requires AddProgram(prog, job) && Sensible(job) && Begins(s0) && k < 64
    ensures var n := 22 * job.rounds + 5 * k + 8;
      Nth(prog, s0, n).opcode == LW && IndexOf(AccessAt(prog, s0, n)) == k && TagOf(AccessAt(prog, s0, n)) == 0
  {
    hide AddProgram, Added, Step, SumAt;
    var n := 22 * job.rounds + 5 * k + 8;
    assert PlaceOf(job, n) == (k, 30);
    AlwaysStands(prog, job, s0, n);
    WhereIs(prog, job, s0, n);
    AddAccess(prog, job, s0, n);
    SweepInstructions(prog, job, Steps(prog, s0, n), s0.mem, k, 30);
  }

  /** Each load of the second loop misses. */
  lemma SweepMisses(prog: Program, job: Job, s0: Machine, k: nat)
    requires AddProgram(prog, job) && Sensible(job) && Begins(s0) && k < 64
    requires ColdFrom(prog, s0, 22 * job.rounds + 5 * k + 8, k, 2 * job.rounds + k, job.rounds)
    ensures ColdFrom(prog, s0, 22 * job.rounds + 5 * k + 13, k + 1, 2 * job.rounds + k + 1, job.rounds)
  {
    hide AddProgram, Begins, Nth, AccessAt, IndexOf, TagOf;
    var n := 22 * job.rounds + 5 * k + 8;
    SweepAt(prog, job, s0, k);
    Accessed(prog, s0, n, k, k, Resident(prog, s0, n, k), 2 * job.rounds + k, job.rounds, 0);
    forall x: nat | n + 1 <= x < n + 5
      ensures !IsMemory(Nth(prog, s0, x).opcode)
    {
      SweepPlace(job, k, x - n);
      CodePasses(prog, job, s0, x);
    }
    ColdPasses(prog, s0, n + 1, k + 1, 2 * job.rounds + k + 1, job.rounds, 4);
  }

  lemma SweepPlace(job: Job, k: nat, y: nat)
    requires k < 64 && y < 5
    ensures PlaceOf(job, 22 * job.rounds + 5 * k + 8 + y) == (k, 30 + y)
  {
    assert (5 * k + y) / 5 == k && (5 * k + y) % 5 == y;
  }

  lemma {:induction false} SweepsMiss(prog: Program, job: Job, s0: Machine, k: nat)
    requires AddProgram(prog, job) && Aligned(job) && Begins(s0) && k <= 64
    ensures ColdFrom(prog, s0, 22 * job.rounds + 5 * k + 8, k, 2 * job.rounds + k, job.rounds)
  {
    hide AddProgram, Begins, ColdFrom;
    if k == 0 {
      RoundsMiss(prog, job, s0, job.rounds);
      forall n: nat | 22 * job.rounds + 6 <= n < 22 * job.rounds + 8
        ensures !IsMemory(Nth(prog, s0, n).opcode)
      {
        CodePasses(prog, job, s0, n);
      }
      ColdPasses(prog, s0, 22 * job.rounds + 6, 0, 2 * job.rounds, job.rounds, 2);
    } else {
      SweepsMiss(prog, job, s0, k - 1);
      SweepMisses(prog, job, s0, k - 1);
    }
  }

  /** The misses of the whole run. */
  lemma AddMissesExact(prog: Program, job: Job, s0: Machine)
    requires AddProgram(prog, job) && Aligned(job) && Begins(s0)
    ensures Misses(prog, s0, Total(job), false) == 2 * job.rounds + 64
    ensures Misses(prog, s0, Total(job), true) == job.rounds
  {
    hide AddProgram, Begins;
    SweepsMiss(prog, job, s0, 64);
  }
}
