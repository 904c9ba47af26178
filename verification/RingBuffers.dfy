/** A stack of recent items that forgets the oldest ones when it is full. */
module RingBuffers {
  import opened Wrappers

  datatype Capacity = Limited(limit: nat) | Infinite

  predicate Fits<T>(s: seq<T>, capacity: Capacity) {
    capacity.Limited? ==> |s| <= capacity.limit
  }

  /** The buffer after a push. */
  function Pushed<T>(s: seq<T>, capacity: Capacity, item: T): (r: seq<T>)
    ensures Fits(s, capacity) ==> Fits(r, capacity)
  {
    match capacity
    case Infinite => s + [item]
    case Limited(limit) =>
      if limit == 0 then s
      else if |s| == limit then s[1..] + [item]
      else s + [item]
  }

  function PushedAll<T>(s: seq<T>, capacity: Capacity, items: seq<T>): seq<T>
    decreases |items|
  {
    if items == [] then s else PushedAll(Pushed(s, capacity, items[0]), capacity, items[1..])
  }

  ghost predicate IsSuffix<T>(s: seq<T>, t: seq<T>) {
    |s| <= |t| && t[|t| - |s|..] == s
  }

  /** Only pushed to, a limited buffer holds exactly the newest `limit` items. */
  lemma {:induction false} LimitedKeepsNewest<T>(s: seq<T>, limit: nat, items: seq<T>)
    requires |s| <= limit
    ensures var r := PushedAll(s, Limited(limit), items);
            IsSuffix(r, s + items) && |r| == if |s + items| <= limit then |s + items| else limit
    decreases |items|
  {
    hide IsSuffix, Pushed;
    if items == [] {
      assert s + items == s;
      SuffixReflexive(s);
    } else {
      var s' := Pushed(s, Limited(limit), items[0]);
      var r := PushedAll(s', Limited(limit), items[1..]);
      LimitedKeepsNewest(s', limit, items[1..]);
      PushedIsSuffix(s, limit, items[0]);
      assert (s + [items[0]]) + items[1..] == s + items;
      SuffixConcat(s', s + [items[0]], items[1..]);
      SuffixTransitive(r, s' + items[1..], s + items);
    }
  }

  lemma PushedIsSuffix<T>(s: seq<T>, limit: nat, item: T)
    requires |s| <= limit
    ensures var r := Pushed(s, Limited(limit), item);
            IsSuffix(r, s + [item]) && |r| == if |s| < limit then |s| + 1 else limit
  {
  }

  lemma SuffixConcat<T>(a: seq<T>, b: seq<T>, c: seq<T>)
    requires IsSuffix(a, b)
    ensures IsSuffix(a + c, b + c)
  {
    var d := |b| - |a|;
    assert (b + c)[d..] == b[d..] + c;
  }

  lemma SuffixReflexive<T>(a: seq<T>)
    ensures IsSuffix(a, a)
  {
  }

  lemma SuffixTransitive<T>(a: seq<T>, b: seq<T>, c: seq<T>)
    requires IsSuffix(a, b) && IsSuffix(b, c)
    ensures IsSuffix(a, c)
  {
    assert c[|c| - |a|..] == c[|c| - |b|..][|b| - |a|..];
  }

  class RingBuffer<T> {
    var inner: seq<T>
    const capacity: Capacity

    ghost predicate Valid()
      reads this
    {
      Fits(inner, capacity)
    }

    constructor (capacity: Capacity)
      ensures Valid() && inner == [] && this.capacity == capacity
    {
      this.inner := [];
      this.capacity := capacity;
    }

    method Push(item: T)
      requires Valid()
      modifies this
      ensures Valid()
      ensures inner == Pushed(old(inner), capacity, item)
    {
      match capacity {
        case Infinite =>
          inner := inner + [item];
        case Limited(limit) =>
          if limit != 0 {
            if |inner| == limit {
              inner := inner[1..];
            }
            inner := inner + [item];
          }
      }
    }

    method PopBack() returns (r: Option<T>)
      requires Valid()
      modifies this
      ensures Valid()
      ensures old(inner) == [] ==> r == None && inner == []
      ensures old(inner) != [] ==> r.Some? && old(inner) == inner + [r.value]
    {
      if inner == [] {
        return None;
      }
      r := Some(inner[|inner| - 1]);
      inner := inner[..|inner| - 1];
    }

    method Back() returns (r: Option<T>)
      ensures inner == [] ==> r == None
      ensures inner != [] ==> r == Some(inner[|inner| - 1])
    {
      r := if inner == [] then None else Some(inner[|inner| - 1]);
    }

    method Clear()
      modifies this
      ensures Valid() && inner == []
    {
      inner := [];
    }
  }
}
