/**
 Giving out numbered things to keys (allocateWorker in agent/worker.go): a key keeps what it has, and
 a new key gets the next number's. What a resume into a fresh scope keeps of the sequence.
 */
module Allocations {
  // What has been given out: the thing of each key, and how many there are.
  datatype Allocation<T> = Allocation(calls: map<string, T>, next: nat)

  function Given<T>(a: Allocation<T>, of: nat -> T, key: string): T {
    if key in a.calls then a.calls[key] else of(a.next)
  }

  function Give<T>(a: Allocation<T>, of: nat -> T, key: string): Allocation<T> {
    if key in a.calls then a else Allocation(a.calls[key := of(a.next)], a.next + 1)
  }

  function GiveAll<T>(a: Allocation<T>, of: nat -> T, keys: seq<string>): Allocation<T>
    decreases |keys|
  {
    if keys == [] then a else GiveAll(Give(a, of, keys[0]), of, keys[1..])
  }

  // What the keys of a sequence get, one after the other.
  function GivenAll<T>(a: Allocation<T>, of: nat -> T, keys: seq<string>): (things: seq<T>)
    ensures |things| == |keys|
    decreases |keys|
  {
    if keys == [] then [] else [Given(a, of, keys[0])] + GivenAll(Give(a, of, keys[0]), of, keys[1..])
  }

  function Nothing<T>(): Allocation<T> {
    Allocation(map[], 0)
  }

  // What a resume starts with: no keys, and the count of the pause.
  function Resumed<T>(atPause: Allocation<T>): Allocation<T> {
    Allocation(map[], atPause.next)
  }

  ghost predicate Distinct<T(!new)>(of: nat -> T) {
    forall m, n :: of(m) == of(n) ==> m == n
  }

  ghost predicate IsOne<T>(thing: T, of: nat -> T, from: nat, to: nat) {
    exists n: nat :: from <= n < to && thing == of(n)
  }

  // Everything given out is the thing of a number in [from, next).
  ghost predicate Numbered<T>(a: Allocation<T>, of: nat -> T, from: nat) {
    from <= a.next && forall key :: key in a.calls ==> IsOne(a.calls[key], of, from, a.next)
  }

  lemma GiveNumbered<T>(a: Allocation<T>, of: nat -> T, from: nat, key: string)
    requires Numbered(a, of, from)
    ensures Numbered(Give(a, of, key), of, from)
    ensures Give(a, of, key).calls.Keys == a.calls.Keys + {key}
  {
    var after := Give(a, of, key);
    forall k | k in after.calls ensures IsOne(after.calls[k], of, from, after.next) {
      if k in a.calls {
        assert IsOne(a.calls[k], of, from, a.next);
      } else {
        assert after.calls[k] == of(a.next);
      }
    }
  }

  lemma {:induction false} GiveAllNumbered<T>(a: Allocation<T>, of: nat -> T, keys: seq<string>)
    requires Numbered(a, of, 0)
    ensures Numbered(GiveAll(a, of, keys), of, 0)
    ensures GiveAll(a, of, keys).calls.Keys == a.calls.Keys + set key | key in keys
    decreases |keys|
  {
    if keys != [] {
      GiveNumbered(a, of, 0, keys[0]);
      GiveAllNumbered(Give(a, of, keys[0]), of, keys[1..]);
      assert keys == [keys[0]] + keys[1..];
    }
  }

  // New keys get the next numbers' things, one after the other.
  lemma {:induction false} NewKeysInOrder<T>(a: Allocation<T>, of: nat -> T, keys: seq<string>, k: nat)
    requires k < |keys| && forall i :: 0 <= i < |keys| ==> keys[i] !in a.calls
    requires forall i, j :: 0 <= i < j < |keys| ==> keys[i] != keys[j]
    ensures GivenAll(a, of, keys)[k] == of(a.next + k)
    decreases k
  {
    if k > 0 {
      NewKeysInOrder(Give(a, of, keys[0]), of, keys[1..], k - 1);
    }
  }

  // A key that has its thing keeps it, whatever is given out in between.
  lemma {:induction false} KeysKeep<T>(a: Allocation<T>, of: nat -> T, keys: seq<string>, k: nat)
    requires k < |keys| && keys[k] in a.calls
    ensures GivenAll(a, of, keys)[k] == a.calls[keys[k]]
    decreases k
  {
    if k > 0 {
      KeysKeep(Give(a, of, keys[0]), of, keys[1..], k - 1);
    }
  }

  // The uninterrupted allocation and the resumed one, some keys after the pause: the resumed one has
  // exactly the keys since, and used are those from before.
  ghost predicate InStep<T>(used: set<string>, whole: Allocation<T>, resumed: Allocation<T>) {
    && whole.next == resumed.next && whole.calls.Keys == used + resumed.calls.Keys && used !! resumed.calls.Keys
    && forall key :: key in resumed.calls ==> whole.calls[key] == resumed.calls[key]
  }

  lemma NewKeyInStep<T>(used: set<string>, whole: Allocation<T>, resumed: Allocation<T>, of: nat -> T, key: string)
    requires InStep(used, whole, resumed) && key !in used
    ensures Given(whole, of, key) == Given(resumed, of, key)
    ensures InStep(used, Give(whole, of, key), Give(resumed, of, key))
    ensures forall k :: k in used ==> Give(whole, of, key).calls[k] == whole.calls[k]
  {
    assert key in whole.calls <==> key in resumed.calls;
  }

  lemma {:induction false} NewKeysAgree<T>(used: set<string>, whole: Allocation<T>, resumed: Allocation<T>,
        of: nat -> T, keys: seq<string>)
    requires InStep(used, whole, resumed) && forall k :: 0 <= k < |keys| ==> keys[k] !in used
    ensures GivenAll(whole, of, keys) == GivenAll(resumed, of, keys)
    decreases |keys|
  {
    if keys != [] {
      NewKeyInStep(used, whole, resumed, of, keys[0]);
      NewKeysAgree(used, Give(whole, of, keys[0]), Give(resumed, of, keys[0]), of, keys[1..]);
    }
  }

  // A key from before the pause has a thing with a number below the pause's count; the resumed
  // allocation gives it another.
  lemma {:induction false} OldKeyDiffers<T(!new)>(used: set<string>, from: nat, whole: Allocation<T>,
        resumed: Allocation<T>,
        of: nat -> T, keys: seq<string>, k: nat)
    requires Distinct(of) && InStep(used, whole, resumed) && from <= resumed.next
    requires forall key :: key in used ==> IsOne(whole.calls[key], of, 0, from)
    requires k < |keys| && keys[k] in used && forall j :: 0 <= j < k ==> keys[j] !in used
    ensures GivenAll(whole, of, keys)[k] != GivenAll(resumed, of, keys)[k]
    decreases k
  {
    if k == 0 {
      assert IsOne(whole.calls[keys[0]], of, 0, from);
    } else {
      NewKeyInStep(used, whole, resumed, of, keys[0]);
      OldKeyDiffers(used, from, Give(whole, of, keys[0]), Give(resumed, of, keys[0]), of, keys[1..], k - 1);
    }
  }

  lemma FirstOld(used: set<string>, keys: seq<string>) returns (k: nat)
    requires exists i :: 0 <= i < |keys| && keys[i] in used
    ensures k < |keys| && keys[k] in used && forall j :: 0 <= j < k ==> keys[j] !in used
  {
    k := 0;
    while keys[k] !in used
      invariant k < |keys| && forall j :: 0 <= j < k ==> keys[j] !in used
      invariant exists i :: k <= i < |keys| && keys[i] in used
      decreases |keys| - k
    {
      k := k + 1;
    }
  }

  // A resumed sequence goes on exactly as the uninterrupted one would have, if and only if no key after
  // the pause was there before it.
  lemma ResumeContinues<T(!new)>(of: nat -> T, before: seq<string>, after: seq<string>)
    requires Distinct(of)
    ensures var atPause := GiveAll(Nothing(), of, before);
            GivenAll(Resumed(atPause), of, after) == GivenAll(atPause, of, after)
            <==> forall k :: 0 <= k < |after| ==> after[k] !in before
  {
    var atPause := GiveAll(Nothing(), of, before);
    var used := atPause.calls.Keys;
    GiveAllNumbered(Nothing(), of, before);
    if forall k :: 0 <= k < |after| ==> after[k] !in before {
      NewKeysAgree(used, atPause, Resumed(atPause), of, after);
    } else {
      var i :| 0 <= i < |after| && after[i] in before;
      assert after[i] in used;
      var k := FirstOld(used, after);
      OldKeyDiffers(used, atPause.next, atPause, Resumed(atPause), of, after, k);
    }
  }
}
