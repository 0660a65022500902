/** Small shared vocabulary: optional values and sequences keyed by a name. */
module Basics {
  datatype Option<+T> = None | Some(value: T)

  /** The last element of a non-empty sequence. */
  function Last<T>(s: seq<T>): T
    requires s != []
  {
    s[|s| - 1]
  }

  /** All elements but the last. */
  function Front<T>(s: seq<T>): seq<T>
    requires s != []
  {
    s[..|s| - 1]
  }

  /** The elements of three sequences, one after the other. */
  lemma Sandwich<T>(a: seq<T>, b: seq<T>, c: seq<T>)
    ensures var s := a + b + c;
            && |s| == |a| + |b| + |c|
            && (forall i :: 0 <= i < |a| ==> s[i] == a[i])
            && (forall i :: 0 <= i < |b| ==> s[|a| + i] == b[i])
            && (forall i :: 0 <= i < |c| ==> s[|a| + |b| + i] == c[i])
  {
  }

  /** Replaces the first element that has the key of `x`, or appends `x` when there is none. */
  function Upsert<T>(s: seq<T>, x: T, key: T -> string): seq<T> {
    if s == [] then [x]
    else if key(s[0]) == key(x) then [x] + s[1..]
    else [s[0]] + Upsert(s[1..], x, key)
  }

  /** The keys of a sequence, in order. */
  function Keys<T>(s: seq<T>, key: T -> string): seq<string> {
    seq(|s|, i requires 0 <= i < |s| => key(s[i]))
  }

  /** No two positions carry the same key. */
  ghost predicate UniqueKeys<T>(s: seq<T>, key: T -> string) {
    forall i, j :: 0 <= i < j < |s| ==> key(s[i]) != key(s[j])
  }

  /** A keyed sequence read as a dictionary. */
  ghost function View<T>(s: seq<T>, key: T -> string): map<string, T> {
    if s == [] then map[] else View(s[1..], key)[key(s[0]) := s[0]]
  }

  lemma {:induction false} UpsertAt<T>(s: seq<T>, x: T, key: T -> string, i: nat)
    requires i < |s| && key(s[i]) == key(x)
    requires forall j :: 0 <= j < i ==> key(s[j]) != key(x)
    ensures Upsert(s, x, key) == s[i := x]
  {
    if i > 0 {
      UpsertAt(s[1..], x, key, i - 1);
    }
  }

  lemma {:induction false} UpsertAbsent<T>(s: seq<T>, x: T, key: T -> string)
    requires forall j :: 0 <= j < |s| ==> key(s[j]) != key(x)
    ensures Upsert(s, x, key) == s + [x]
  {
    if s != [] {
      UpsertAbsent(s[1..], x, key);
      assert s == [s[0]] + s[1..];
    }
  }

  lemma KeysCons<T>(x: T, s: seq<T>, key: T -> string)
    ensures Keys([x] + s, key) == [key(x)] + Keys(s, key)
  {
  }

  /** Order is kept: the keys are the old ones, followed by the new key only when it was absent. */
  lemma {:induction false} UpsertKeepsOrder<T>(s: seq<T>, x: T, key: T -> string)
    ensures Keys(Upsert(s, x, key), key) ==
            if key(x) in Keys(s, key) then Keys(s, key) else Keys(s, key) + [key(x)]
  {
    if s != [] {
      var t := Upsert(s[1..], x, key);
      KeysCons(s[0], s[1..], key);
      assert s == [s[0]] + s[1..];
      if key(s[0]) == key(x) {
        KeysCons(x, s[1..], key);
        assert Keys(s, key)[0] == key(x);
      } else {
        UpsertKeepsOrder(s[1..], x, key);
        KeysCons(s[0], t, key);
        var k0 := [key(s[0])];
        var ks := Keys(s[1..], key);
        assert key(x) in k0 + ks <==> key(x) in ks;
        assert k0 + (ks + [key(x)]) == (k0 + ks) + [key(x)];
      }
    }
  }

  lemma UpsertKeepsUnique<T>(s: seq<T>, x: T, key: T -> string)
    requires UniqueKeys(s, key)
    ensures UniqueKeys(Upsert(s, x, key), key)
  {
    UpsertKeepsOrder(s, x, key);
    var t := Upsert(s, x, key);
    var ks := Keys(t, key);
    assert |t| == |ks|;
    forall i, j | 0 <= i < j < |t|
      ensures key(t[i]) != key(t[j])
    {
      assert key(t[i]) == ks[i] && key(t[j]) == ks[j];
      if j < |s| {
        assert ks[i] == key(s[i]) && ks[j] == key(s[j]);
      } else {
        assert ks[j] == key(x) && ks[i] == Keys(s, key)[i];
      }
    }
  }

  /** With unique keys the in-place update is exactly a dictionary update. */
  lemma {:induction false} UpsertIsMapUpdate<T>(s: seq<T>, x: T, key: T -> string)
    requires UniqueKeys(s, key)
    ensures View(Upsert(s, x, key), key) == View(s, key)[key(x) := x]
  {
    if s != [] {
      if key(s[0]) == key(x) {
        assert ([x] + s[1..])[1..] == s[1..];
      } else {
        UpsertIsMapUpdate(s[1..], x, key);
        assert ([s[0]] + Upsert(s[1..], x, key))[1..] == Upsert(s[1..], x, key);
      }
    }
  }

  /** Replacing twice is replacing once, whether or not keys are unique. */
  lemma {:induction false} UpsertTwice<T>(s: seq<T>, x: T, key: T -> string)
    ensures Upsert(Upsert(s, x, key), x, key) == Upsert(s, x, key)
  {
    if s != [] && key(s[0]) != key(x) {
      UpsertTwice(s[1..], x, key);
      assert ([s[0]] + Upsert(s[1..], x, key))[1..] == Upsert(s[1..], x, key);
    } else if s != [] {
      assert ([x] + s[1..])[1..] == s[1..];
    }
  }

  /** Updates under different keys that are both present already do not disturb each other. */
  lemma {:induction false} UpsertPresentNoOp<T>(s: seq<T>, x: T, y: T, key: T -> string)
    requires key(x) != key(y)
    requires Upsert(s, x, key) == s
    ensures Upsert(Upsert(s, y, key), x, key) == Upsert(s, y, key)
  {
    if s == [] {
      assert false;
    } else if key(s[0]) == key(y) {
      assert s[0] == Upsert(s, x, key)[0];
      assert Upsert(s, x, key)[1..] == s[1..];
      assert Upsert(s[1..], x, key) == s[1..];
      assert ([y] + s[1..])[1..] == s[1..];
    } else if key(s[0]) == key(x) {
      assert s[0] == x;
      assert ([s[0]] + Upsert(s[1..], y, key))[1..] == Upsert(s[1..], y, key);
    } else {
      assert Upsert(s, x, key)[1..] == s[1..];
      UpsertPresentNoOp(s[1..], x, y, key);
      assert ([s[0]] + Upsert(s[1..], y, key))[1..] == Upsert(s[1..], y, key);
    }
  }
}
