/** The log buffer of src/manager/buffer.rs: a vector that is overwritten in place once it is full. */
module Ring {
  import opened Basics

  /** The last `n` items. */
  function LastN<T>(s: seq<T>, n: nat): seq<T> {
    if |s| <= n then s else s[|s| - n..]
  }

  /** The contents in push order: `split_at(at)` with the second half first. */
  function Unrolled<T>(inner: seq<T>, at: nat): seq<T>
    requires at <= |inner|
  {
    inner[at..] + inner[..at]
  }

  lemma NextAt(at: nat, cap: nat)
    requires at < cap
    ensures (at + 1) % cap == if at + 1 < cap then at + 1 else 0
  {
  }

  lemma FillStep<T>(inner: seq<T>, log: seq<T>, o: T, cap: nat, at: nat)
    requires |inner| < cap && inner == LastN(log, cap) && at == if |inner| + 1 < cap then |inner| + 1 else 0
    ensures Unrolled(inner + [o], at) == LastN(log + [o], cap)
  {
    assert inner == log;
    assert Unrolled(inner + [o], at) == inner + [o];
  }

  lemma LastOfMore<T>(log: seq<T>, o: T, cap: nat)
    requires 1 <= cap <= |log|
    ensures LastN(log + [o], cap) == LastN(log, cap)[1..] + [o]
  {
  }

  lemma Rotate<T>(inner: seq<T>, at: nat, o: T)
    requires at < |inner|
    ensures Unrolled(inner[at := o], at + 1) == Unrolled(inner, at)[1..] + [o]
  {
    var a, b := Unrolled(inner[at := o], at + 1), Unrolled(inner, at)[1..] + [o];
    assert inner[at := o][at + 1..] == inner[at + 1..] == inner[at..][1..];
    assert inner[at := o][..at + 1] == inner[..at] + [o];
  }

  lemma WrapStep<T>(inner: seq<T>, at: nat, log: seq<T>, o: T, cap: nat, next: nat)
    requires at < |inner| == cap && Unrolled(inner, at) == LastN(log, cap) && next == if at + 1 < cap then at + 1 else 0
    ensures Unrolled(inner[at := o], next) == LastN(log + [o], cap)
  {
    assert |log| >= cap;
    LastOfMore(log, o, cap);
    Rotate(inner, at, o);
    hide LastN;
    if at + 1 == cap { assert Unrolled(inner[at := o], 0) == inner[at := o] == Unrolled(inner[at := o], cap); }
  }

  class Buffer<T> {
    const cap: nat
    var inner: seq<T>
    var at: nat
    ghost var log: seq<T> // everything ever pushed

    ghost predicate Valid()
      reads this
    {
      && 1 <= cap && |inner| <= cap && at < cap
      && (|inner| < cap ==> at == |inner|)
      && Unrolled(inner, at) == LastN(log, cap)
    }

    constructor (cap: nat)
      requires 1 <= cap
      ensures Valid() && log == [] && this.cap == cap
    {
      this.cap := cap;
      inner, at, log := [], 0, [];
    }

    /** Whatever was pushed before, across the change from filling to wrapping. */
    method Push(o: T)
      requires Valid()
      modifies this
      ensures Valid() && log == old(log) + [o]
    {
      hide LastN;
      NextAt(at, cap);
      var next := (at + 1) % cap;
      if |inner| < cap {
        assert Unrolled(inner, |inner|) == inner;
        FillStep(inner, log, o, cap, next);
        inner := inner + [o];
      } else {
        WrapStep(inner, at, log, o, cap, next);
        inner := inner[at := o];
      }
      at := next;
      log := log + [o];
    }

    /** `into_iter`: the part from `at` on comes first. */
    method Iterate() returns (it: BufferIter<T>)
      requires Valid()
      ensures fresh(it) && it.index == 0 && it.first + it.second == LastN(log, cap)
    {
      it := new BufferIter(inner[at..], inner[..at]);
    }

    /** The snapshot `stream` takes: exactly the last min(n, cap) items, in push order. */
    method Collect() returns (items: seq<T>)
      requires Valid()
      ensures items == LastN(log, cap)
    {
      var it := Iterate();
      ghost var all := LastN(log, cap);
      hide LastN, Unrolled;
      items := [];
      while true
        invariant fresh(it) && it.first + it.second == all
        invariant it.index == |items| <= |all| && items == all[..|items|]
        decreases |all| - it.index
      {
        var x := it.Next();
        if x.None? { break; }
        items := items + [x.value];
      }
    }
  }

  class BufferIter<T> {
    const first: seq<T>
    const second: seq<T>
    var index: nat

    constructor (first: seq<T>, second: seq<T>)
      ensures this.first == first && this.second == second && index == 0
    {
      this.first, this.second, index := first, second, 0;
    }

    method Next() returns (r: Option<T>)
      modifies this
      ensures index == old(index) + 1
      ensures r == if old(index) < |first + second| then Some((first + second)[old(index)]) else None
    {
      var i := index;
      index := index + 1;
      if i < |first| {
        r := Some(first[i]);
      } else if i - |first| < |second| {
        r := Some(second[i - |first|]);
      } else {
        r := None;
      }
    }
  }
}
