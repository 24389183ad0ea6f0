/**
 The names and avatars of a task's workers (agent/worker.go): a seeded shuffle, the allocation in
 rounds, and its continuation after a pause.
 */
module Workers {
  import opened Allocations

  const GAMMA: bv64 := 0x9e3779b97f4a7c15

  // ----- The shuffle -----

  // The output step of SplitMix64.
  function Mix(state: bv64): bv64 {
    var z := (state ^ (state >> 30)) * 0xbf58476d1ce4e5b9;
    var y := (z ^ (z >> 27)) * 0x94d049bb133111eb;
    y ^ (y >> 31)
  }

  function Draw(state: bv64, i: nat): (j: nat)
    ensures j <= i
  {
    Mix(state) as int % (i + 1)
  }

  function Swap(order: seq<int>, i: nat, j: nat): (swapped: seq<int>)
    requires i < |order| && j < |order|
    ensures |swapped| == |order|
  {
    order[i := order[j]][j := order[i]]
  }

  function Shuffle(order: seq<int>, state: bv64, i: int): (shuffled: seq<int>)
    requires i < |order|
    ensures |shuffled| == |order|
    decreases i
  {
    if i <= 0 then order else Shuffle(Swap(order, i, Draw(state + GAMMA, i)), state + GAMMA, i - 1)
  }

  function Identity(n: nat): (order: seq<int>)
    ensures |order| == n
  {
    seq(n, i => i)
  }

  function Permutation(seed: bv64, stream: bv64, n: nat): (order: seq<int>)
    ensures |order| == n
  {
    if seed == 0 then Identity(n) else Shuffle(Identity(n), seed ^ (stream * GAMMA), n - 1)
  }

  predicate IsPermutation(order: seq<int>) {
    && (forall i :: 0 <= i < |order| ==> 0 <= order[i] < |order|)
    && forall i, j :: 0 <= i < j < |order| ==> order[i] != order[j]
  }

  lemma {:induction false} ShufflePermutes(order: seq<int>, state: bv64, i: int)
    requires i < |order| && IsPermutation(order)
    ensures IsPermutation(Shuffle(order, state, i))
    decreases i
  {
    if i > 0 {
      ShufflePermutes(Swap(order, i, Draw(state + GAMMA, i)), state + GAMMA, i - 1);
    }
  }

  // For every seed and stream the order is a permutation.
  lemma OrderIsPermutation(seed: bv64, stream: bv64, n: nat)
    ensures IsPermutation(Permutation(seed, stream, n))
  {
    if seed != 0 {
      ShufflePermutes(Identity(n), seed ^ (stream * GAMMA), n - 1);
    }
  }

  lemma SeedOneDraws()
    ensures Draw(0xdaa66d2c7ddf7440, 6) == 1 && Draw(0x78dde6e5fd29f055, 5) == 5 && Draw(0x1715609f7c746c6a, 4) == 1
    ensures Draw(0xb54cda58fbbee87f, 3) == 0 && Draw(0x538454127b096494, 2) == 0 && Draw(0xf1bbcdcbfa53e0a9, 1) == 1
  {
    assert Mix(0xdaa66d2c7ddf7440) == 0xf893a2eefb32555e && Mix(0x78dde6e5fd29f055) == 0x71c18690ee42c90b;
    assert Mix(0x1715609f7c746c6a) == 0x71bb54d8d101b5b9 && Mix(0xb54cda58fbbee87f) == 0xc34d0bff90150280;
    assert Mix(0x538454127b096494) == 0xe099ec6cd7363ca5 && Mix(0xf1bbcdcbfa53e0a9) == 0x85e7bb0f12278575;
  }

  // The order of avatars that the repository fixes for seed 1: a recorded seed means the same order in
  // every build.
  lemma SeedOneAvatars()
    ensures Permutation(1, 2, 7) == [2, 4, 3, 0, 6, 5, 1]
  {
    SeedOneDraws();
    var s0: bv64 := 1 ^ (2 * GAMMA);
    var s1, s2, s3 := 0xdaa66d2c7ddf7440, 0x78dde6e5fd29f055, 0x1715609f7c746c6a;
    var s4, s5, s6 := 0xb54cda58fbbee87f, 0x538454127b096494, 0xf1bbcdcbfa53e0a9;
    assert s0 + GAMMA == s1 && s1 + GAMMA == s2 && s2 + GAMMA == s3;
    assert s3 + GAMMA == s4 && s4 + GAMMA == s5 && s5 + GAMMA == s6;
    assert Identity(7) == [0, 1, 2, 3, 4, 5, 6];
    ShuffleStep([0, 1, 2, 3, 4, 5, 6], s0, 6);
    ShuffleStep([0, 6, 2, 3, 4, 5, 1], s1, 5);
    ShuffleStep([0, 6, 2, 3, 4, 5, 1], s2, 4);
    ShuffleStep([0, 4, 2, 3, 6, 5, 1], s3, 3);
    ShuffleStep([3, 4, 2, 0, 6, 5, 1], s4, 2);
    ShuffleStep([2, 4, 3, 0, 6, 5, 1], s5, 1);
  }

  method SwapElements(order: array<int>, i: nat, j: nat)
    requires i < order.Length && j < order.Length
    modifies order
    ensures order[..] == Swap(old(order[..]), i, j)
  {
    order[i], order[j] := order[j], order[i];
  }

  lemma ShuffleStep(order: seq<int>, state: bv64, i: int)
    requires 0 < i < |order|
    ensures Shuffle(order, state, i) == Shuffle(Swap(order, i, Draw(state + GAMMA, i)), state + GAMMA, i - 1)
  {
  }

  method ShuffleInPlace(order: array<int>, start: bv64)
    modifies order
    ensures order[..] == Shuffle(old(order[..]), start, order.Length - 1)
  {
    var state, i := start, order.Length - 1;
    while i > 0
      invariant i < order.Length
      invariant Shuffle(old(order[..]), start, order.Length - 1) == Shuffle(order[..], state, i)
    {
      ShuffleStep(order[..], state, i);
      state := state + GAMMA;
      var j := Draw(state, i);
      SwapElements(order, i, j);
      i := i - 1;
    }
  }

  method WorkerPermutation(seed: bv64, stream: bv64, n: nat) returns (order: array<int>)
    ensures fresh(order) && order[..] == Permutation(seed, stream, n)
  {
    order := new int[n](i => i);
    assert order[..] == Identity(n);
    if seed != 0 {
      ShuffleInPlace(order, seed ^ (stream * GAMMA));
    }
  }

  // ----- Permutations reach every index -----

  function Values(order: seq<int>): set<int> {
    set i | 0 <= i < |order| :: order[i]
  }

  lemma {:induction false} ValuesSize(order: seq<int>)
    requires forall i, j :: 0 <= i < j < |order| ==> order[i] != order[j]
    ensures |Values(order)| == |order|
  {
    if order != [] {
      var n := |order| - 1;
      ValuesSize(order[..n]);
      assert Values(order) == Values(order[..n]) + {order[n]} by {
        forall v | v in Values(order) ensures v in Values(order[..n]) + {order[n]} {
          var i :| 0 <= i < |order| && order[i] == v;
          assert i < n ==> order[..n][i] == v;
        }
      }
    }
  }

  function Indices(n: nat): (s: set<int>)
    ensures |s| == n && forall i :: i in s <==> 0 <= i < n
  {
    if n == 0 then {} else Indices(n - 1) + {n - 1}
  }

  lemma SubsetOfSameSize(a: set<int>, b: set<int>)
    requires a <= b && |a| == |b|
    ensures a == b
  {
    assert b == a + (b - a);
  }

  lemma PermutationOnto(order: seq<int>, v: int)
    requires IsPermutation(order) && 0 <= v < |order|
    ensures exists i :: 0 <= i < |order| && order[i] == v
  {
    ValuesSize(order);
    SubsetOfSameSize(Values(order), Indices(|order|));
    assert v in Values(order);
  }

  // ----- Names -----

  const NAMES: seq<string> := [
    "Milo", "Luna", "Pip", "Cleo", "Finn", "Nova", "Remy", "Iris",
    "John", "Ada", "Theo", "Ruby", "Jack", "Hazel", "Owen", "Mia",
    "Leo", "Ivy", "Sam", "Nora", "Felix", "June", "Max", "Rose",
    "Eli", "Maya", "Gus", "Ella", "Oscar", "Lily", "Ben", "Zoe"]

  const AVATARS := 7

  function Digit(d: nat): char
    requires d < 10
  {
    '0' + d as char
  }

  function Decimal(n: nat): (text: string)
    ensures text != ""
  {
    if n < 10 then [Digit(n)] else Decimal(n / 10) + [Digit(n % 10)]
  }

  lemma {:induction false} DecimalInjective(a: nat, b: nat)
    requires Decimal(a) == Decimal(b)
    ensures a == b
  {
    var s, t := Decimal(a), Decimal(b);
    if a >= 10 {
      assert s[..|s| - 1] == Decimal(a / 10) && s[|s| - 1] == Digit(a % 10);
    }
    if b >= 10 {
      assert t[..|t| - 1] == Decimal(b / 10) && t[|t| - 1] == Digit(b % 10);
    }
    if a >= 10 && b >= 10 {
      DecimalInjective(a / 10, b / 10);
    }
  }

  function Suffixed(name: string, round: nat): string {
    if round > 0 then name + "-" + Decimal(round + 1) else name
  }

  // The display name of a name index: a later round of the pool takes its number as a suffix.
  function NameIn(pool: seq<string>, nameIndex: nat): string
    requires pool != []
  {
    Suffixed(pool[nameIndex % |pool|], nameIndex / |pool|)
  }

  function WorkerName(nameIndex: nat): string {
    NameIn(NAMES, nameIndex)
  }

  function Dash(s: string): nat {
    if s == [] || s[0] == '-' then 0 else 1 + Dash(s[1..])
  }

  lemma {:induction false} DashAfter(a: string, x: string)
    requires '-' !in a
    ensures Dash(a + "-" + x) == |a|
  {
    if a == "" {
      assert (a + "-" + x)[0] == '-';
    } else {
      DashAfter(a[1..], x);
      assert (a + "-" + x)[0] == a[0] && a[0] in a;
      assert (a + "-" + x)[1..] == a[1..] + "-" + x;
    }
  }

  lemma SuffixSplit(a: string, x: string, b: string, y: string)
    requires '-' !in a && '-' !in b && a + "-" + x == b + "-" + y
    ensures a == b && x == y
  {
    DashAfter(a, x);
    DashAfter(b, y);
    var s, t := a + "-" + x, b + "-" + y;
    assert s[..|a|] == a && t[..|b|] == b;
    assert s[|a| + 1..] == x && t[|b| + 1..] == y;
  }

  lemma SuffixHasDash(name: string, round: nat, plain: string)
    requires '-' !in plain
    ensures Suffixed(name, round) == plain ==> round == 0
  {
    assert round > 0 ==> Suffixed(name, round)[|name|] == '-';
  }

  predicate GoodPool(pool: seq<string>) {
    && (forall i :: 0 <= i < |pool| ==> '-' !in pool[i])
    && forall i, j :: 0 <= i < |pool| && 0 <= j < |pool| && pool[i] == pool[j] ==> i == j
  }

  lemma FirstNamesDistinct(i: nat, j: nat)
    requires i < 16 && j < |NAMES| && NAMES[i] == NAMES[j]
    ensures i == j
  {
  }

  lemma LastNamesDistinct(i: nat, j: nat)
    requires 16 <= i < |NAMES| && j < |NAMES| && NAMES[i] == NAMES[j]
    ensures i == j
  {
  }

  lemma NamesAreGood()
    ensures GoodPool(NAMES)
  {
    forall i | 0 <= i < |NAMES| ensures '-' !in NAMES[i] {
    }
    forall i, j | 0 <= i < |NAMES| && 0 <= j < |NAMES| && NAMES[i] == NAMES[j] ensures i == j {
      if i < 16 {
        FirstNamesDistinct(i, j);
      } else {
        LastNamesDistinct(i, j);
      }
    }
  }

  lemma SuffixedInjective(x: string, i: nat, y: string, j: nat)
    requires '-' !in x && '-' !in y && Suffixed(x, i) == Suffixed(y, j)
    ensures x == y && i == j
  {
    SuffixHasDash(x, i, y);
    SuffixHasDash(y, j, x);
    if i > 0 && j > 0 {
      SuffixSplit(x, Decimal(i + 1), y, Decimal(j + 1));
      DecimalInjective(i + 1, j + 1);
    }
  }

  lemma MultiplyOrder(a: int, b: int, c: nat)
    ensures a <= b ==> a * c <= b * c
  {
  }

  lemma DivMod(q: nat, r: nat, pool: nat)
    requires r < pool
    ensures (q * pool + r) / pool == q && (q * pool + r) % pool == r
  {
    var d := (q * pool + r) / pool;
    MultiplyOrder(d + 1, q, pool);
    MultiplyOrder(q + 1, d, pool);
  }

  lemma SameDivMod(a: nat, b: nat, pool: nat)
    requires pool > 0 && a / pool == b / pool && a % pool == b % pool
    ensures a == b
  {
  }

  lemma NameInInjective(pool: seq<string>, a: nat, b: nat)
    requires pool != [] && GoodPool(pool) && NameIn(pool, a) == NameIn(pool, b)
    ensures a == b
  {
    SuffixedInjective(pool[a % |pool|], a / |pool|, pool[b % |pool|], b / |pool|);
    SameDivMod(a, b, |pool|);
  }

  // Different name indexes have different display names.
  lemma WorkerNameInjective(a: nat, b: nat)
    requires WorkerName(a) == WorkerName(b)
    ensures a == b
  {
    NamesAreGood();
    NameInInjective(NAMES, a, b);
  }

  // ----- The order of allocation -----

  // The name index of worker number n: every name is used once before any repeats.
  function NameIndex(names: seq<int>, n: nat): int
    requires names != []
  {
    n / |names| * |names| + names[n % |names|]
  }

  lemma NameIndexInRound(names: seq<int>, n: nat)
    requires names != [] && IsPermutation(names)
    ensures NameIndex(names, n) >= 0
    ensures NameIndex(names, n) / |names| == n / |names|
    ensures NameIndex(names, n) % |names| == names[n % |names|]
  {
    assert n / |names| * |names| >= 0;
    DivMod(n / |names|, names[n % |names|], |names|);
  }

  // Distinct workers get distinct name indexes ...
  lemma NameIndexInjective(names: seq<int>, m: nat, n: nat)
    requires names != [] && IsPermutation(names)
    ensures NameIndex(names, m) == NameIndex(names, n) ==> m == n
  {
    NameIndexInRound(names, m);
    NameIndexInRound(names, n);
    if NameIndex(names, m) == NameIndex(names, n) {
      assert m % |names| == n % |names|;
      SameDivMod(m, n, |names|);
    }
  }

  // ... and every name index is some worker's, within the same round.
  lemma NameIndexOnto(names: seq<int>, v: nat)
    requires names != [] && IsPermutation(names)
    ensures exists n: nat :: NameIndex(names, n) == v && n / |names| == v / |names|
  {
    var pool := |names|;
    PermutationOnto(names, v % pool);
    var i :| 0 <= i < pool && names[i] == v % pool;
    var n := v / pool * pool + i;
    DivMod(v / pool, i, pool);
    assert NameIndex(names, n) == v / pool * pool + v % pool;
  }

  datatype Worker = Worker(id: string, name: string, nameIndex: nat, avatarIndex: int)

  function NameOrder(seed: bv64): (order: seq<int>)
    ensures |order| == |NAMES| && IsPermutation(order)
  {
    OrderIsPermutation(seed, 1, |NAMES|);
    Permutation(seed, 1, |NAMES|)
  }

  function AvatarOrder(seed: bv64): (order: seq<int>)
    ensures |order| == AVATARS && IsPermutation(order)
  {
    OrderIsPermutation(seed, 2, AVATARS);
    Permutation(seed, 2, AVATARS)
  }

  function WorkerFrom(names: seq<int>, avatars: seq<int>, n: nat): Worker
    requires names != [] && IsPermutation(names) && avatars != []
  {
    NameIndexInRound(names, n);
    Worker("worker-" + Decimal(n + 1), WorkerName(NameIndex(names, n)), NameIndex(names, n), avatars[n % |avatars|])
  }

  // Worker number n of a task with this seed.
  function WorkerOf(seed: bv64, n: nat): Worker {
    WorkerFrom(NameOrder(seed), AvatarOrder(seed), n)
  }

  lemma WorkersFromDiffer(names: seq<int>, avatars: seq<int>, m: nat, n: nat)
    requires names != [] && IsPermutation(names) && avatars != []
    ensures var a, b := WorkerFrom(names, avatars, m), WorkerFrom(names, avatars, n);
            a.id == b.id || a.name == b.name ==> m == n
  {
    var a, b := WorkerFrom(names, avatars, m), WorkerFrom(names, avatars, n);
    if a.id == b.id {
      assert a.id[7..] == Decimal(m + 1) && b.id[7..] == Decimal(n + 1);
      DecimalInjective(m + 1, n + 1);
    } else if a.name == b.name {
      WorkerNameInjective(a.nameIndex, b.nameIndex);
      NameIndexInjective(names, m, n);
    }
  }

  // No two workers of a task share an ID or a display name.
  lemma WorkersDiffer(seed: bv64, m: nat, n: nat)
    ensures WorkerOf(seed, m).id == WorkerOf(seed, n).id || WorkerOf(seed, m).name == WorkerOf(seed, n).name ==> m == n
  {
    WorkersFromDiffer(NameOrder(seed), AvatarOrder(seed), m, n);
  }

  // Workers of the same cycle have different avatars, and the next cycle repeats them.
  lemma AvatarsCycle(seed: bv64, m: nat, n: nat)
    ensures m / AVATARS == n / AVATARS && WorkerOf(seed, m).avatarIndex == WorkerOf(seed, n).avatarIndex ==> m == n
    ensures 0 <= WorkerOf(seed, m).avatarIndex < AVATARS
    ensures WorkerOf(seed, m + AVATARS).avatarIndex == WorkerOf(seed, m).avatarIndex
  {
    var order := AvatarOrder(seed);
    assert IsPermutation(order);
    assert (m + AVATARS) % AVATARS == m % AVATARS;
  }

  // The number a decimal text stands for.
  function Value(text: string): int {
    if text == "" then 0 else 10 * Value(text[..|text| - 1]) + (text[|text| - 1] as int - '0' as int)
  }

  lemma {:induction false} DecimalValue(n: nat)
    ensures Value(Decimal(n)) == n && forall i :: 0 <= i < |Decimal(n)| ==> '0' <= Decimal(n)[i] <= '9'
  {
    var text := Decimal(n);
    if n >= 10 {
      DecimalValue(n / 10);
      assert text[..|text| - 1] == Decimal(n / 10);
    } else {
      assert text[..0] == "";
    }
  }

  // Worker n is called by its number, and by a name of the pool, which from the second round on has the
  // round as a suffix.
  lemma WorkerNamed(seed: bv64, n: nat)
    ensures var w := WorkerOf(seed, n);
            && w.id == "worker-" + Decimal(n + 1)
            && exists i :: 0 <= i < |NAMES| && w.name == NAMES[i] + if n < |NAMES| then "" else "-" + Decimal(n / |NAMES| + 1)
  {
    var names := NameOrder(seed);
    NameIndexInRound(names, n);
    var i := NameIndex(names, n) % |NAMES|;
    RoundOf(n, |NAMES|);
    assert NAMES[i] + "" == NAMES[i];
    assert WorkerOf(seed, n).name == NAMES[i] + if n < |NAMES| then "" else "-" + Decimal(n / |NAMES| + 1);
  }

  lemma RoundOf(n: nat, pool: nat)
    requires pool > 0
    ensures n / pool > 0 <==> n >= pool
  {
  }

  // ----- The allocator -----

  // Worker n of a task, as a function of n.
  function Numbering(seed: bv64): nat -> Worker {
    (n: nat) => WorkerOf(seed, n)
  }

  // A run that is paused and resumed into a fresh scope gives the calls after the pause exactly the
  // workers it would have given them without the pause, if and only if none of them is a call that had
  // its worker before.
  lemma ResumeContinuesSequence(seed: bv64, before: seq<string>, after: seq<string>)
    ensures var atPause := GiveAll(Nothing(), Numbering(seed), before);
            GivenAll(Resumed(atPause), Numbering(seed), after) == GivenAll(atPause, Numbering(seed), after)
            <==> forall k :: 0 <= k < |after| ==> after[k] !in before
  {
    forall m: nat, n: nat | Numbering(seed)(m) == Numbering(seed)(n) ensures m == n {
      WorkersDiffer(seed, m, n);
    }
    ResumeContinues(Numbering(seed), before, after);
  }

  class WorkerScope {
    var next: nat
    var seed: bv64
    var names: array<int>
    var avatars: array<int>
    var calls: map<string, Worker>
    ghost var numbers: map<string, nat>

    ghost predicate Valid()
      reads this, names, avatars
    {
      && names[..] == NameOrder(seed) && avatars[..] == AvatarOrder(seed)
      && calls.Keys == numbers.Keys
      && (forall key :: key in calls ==> numbers[key] < next && calls[key] == WorkerOf(seed, numbers[key]))
      && forall k1, k2 :: k1 in calls && k2 in calls && numbers[k1] == numbers[k2] ==> k1 == k2
    }

    function Contents(): Allocation<Worker>
      reads this
    {
      Allocation(calls, next)
    }

    static method Orders(seed: bv64) returns (names: array<int>, avatars: array<int>)
      ensures fresh(names) && fresh(avatars) && names[..] == NameOrder(seed) && avatars[..] == AvatarOrder(seed)
    {
      names := WorkerPermutation(seed, 1, |NAMES|);
      avatars := WorkerPermutation(seed, 2, AVATARS);
    }

    constructor (seed: bv64)
      ensures Valid() && next == 0 && this.seed == seed && calls == map[] && fresh(names) && fresh(avatars)
    {
      var names, avatars := Orders(seed);
      this.seed, this.names, this.avatars, next, calls, numbers := seed, names, avatars, 0, map[], map[];
    }

    method NewWorker(n: nat) returns (worker: Worker)
      requires Valid()
      ensures worker == WorkerOf(seed, n)
    {
      assert |names[..]| == names.Length && |avatars[..]| == avatars.Length;
      NameIndexInRound(names[..], n);
      var pool := names.Length;
      var nameIndex := n / pool * pool + names[n % pool];
      worker := Worker("worker-" + Decimal(n + 1), WorkerName(nameIndex), nameIndex, avatars[n % avatars.Length]);
      assert worker == WorkerFrom(names[..], avatars[..], n);
    }

    // A call not seen before gets the next worker of the task's sequence ...
    method AllocateNew(key: string) returns (worker: Worker)
      requires Valid() && key !in calls
      modifies this
      ensures Valid() && seed == old(seed) && names == old(names) && avatars == old(avatars)
      ensures worker == WorkerOf(seed, old(next)) && calls == old(calls)[key := worker] && next == old(next) + 1
    {
      worker := NewWorker(next);
      calls, numbers := calls[key := worker], numbers[key := next];
      next := next + 1;
    }

    // ... and a call seen before keeps its worker.
    method AllocateWorker(key: string) returns (worker: Worker)
      requires Valid()
      modifies this
      ensures Valid() && seed == old(seed) && names == old(names) && avatars == old(avatars)
      ensures worker == Given(old(Contents()), Numbering(seed), key)
      ensures Contents() == Give(old(Contents()), Numbering(seed), key)
    {
      if key in calls {
        return calls[key];
      }
      worker := AllocateNew(key);
    }

    // Continues the sequence of a run that had allocated this many workers before its pause.
    method Continue(given: int, pausedSeed: bv64)
      requires Valid() && (next == 0 ==> calls == map[])
      modifies this
      ensures Valid() && calls == old(calls)
      ensures seed == if old(next) == 0 then pausedSeed else old(seed)
      ensures next == if given > old(next) then given else old(next)
      ensures fresh(names) || names == old(names)
      ensures fresh(avatars) || avatars == old(avatars)
    {
      if next == 0 && seed != pausedSeed {
        seed := pausedSeed;
        names, avatars := Orders(pausedSeed);
      }
      if given > next {
        next := given;
      }
    }
  }

  // The scope of a run: the surrounding one if there is one, or else a new one with a drawn seed.
  method WithWorkerScope(existing: WorkerScope?, drawn: bv64) returns (scope: WorkerScope)
    requires existing != null ==> existing.Valid()
    ensures scope.Valid()
    ensures if existing != null then scope == existing
            else fresh(scope) && scope.Contents() == Allocation(map[], 0) && scope.seed == drawn
  {
    if existing != null {
      return existing;
    }
    scope := new WorkerScope(drawn);
  }

  // A run resumed into a fresh scope goes on with the seed and the count of its pause, and with no
  // calls. Seed 0 with workers allocated is a pause recorded before seeds existed.
  method WithResumedWorkerScope(existing: WorkerScope?, given: int, seed: bv64, drawn: bv64)
    returns (scope: WorkerScope)
    requires existing != null ==> existing.Valid() && (existing.next == 0 ==> existing.calls == map[])
    modifies existing
    ensures scope.Valid()
    ensures existing == null && (seed != 0 || given > 0) ==>
      fresh(scope) && scope.seed == seed && scope.Contents() == Allocation(map[], if given > 0 then given else 0)
    ensures existing != null && old(existing.next) == 0 && (seed != 0 || given > 0) ==>
      scope == existing && scope.seed == seed && scope.Contents() == Allocation(map[], if given > 0 then given else 0)
    ensures existing != null && old(existing.next) > 0 && (seed != 0 || given > 0) ==>
      && scope == existing && scope.seed == old(existing.seed) && scope.calls == old(existing.calls)
      && scope.next == if given > old(existing.next) then given else old(existing.next)
    ensures existing != null && seed == 0 && given <= 0 ==>
      scope == existing && scope.Contents() == old(existing.Contents()) && scope.seed == old(existing.seed)
    ensures existing == null && seed == 0 && given <= 0 ==>
      fresh(scope) && scope.seed == drawn && scope.Contents() == Allocation(map[], 0)
  {
    if seed == 0 && given <= 0 {
      scope := WithWorkerScope(existing, drawn);
      return;
    }
    if existing == null {
      scope := new WorkerScope(seed);
    } else {
      scope := existing;
    }
    scope.Continue(given, seed);
  }
}
