/** List surgery: removing, appending and moving to the front, and what it comes to on duplicate-free lists. */
module Lists {

  predicate Distinct<T(==)>(s: seq<T>) {
    forall i, j :: 0 <= i < j < |s| ==> s[i] != s[j]
  }

  function Elements<T(!new)>(s: seq<T>): set<T> {
    set x | x in s
  }

  lemma ConcatElements<T(!new)>(s: seq<T>, t: seq<T>)
    ensures Elements(s + t) == Elements(s) + Elements(t)
    ensures Distinct(s) && Distinct(t) && Elements(s) !! Elements(t) ==> Distinct(s + t)
  {
    if Distinct(s) && Distinct(t) && Elements(s) !! Elements(t) {
      forall i, j | 0 <= i < j < |s + t| ensures (s + t)[i] != (s + t)[j] {
        if i < |s| <= j {
          assert (s + t)[i] in Elements(s) && (s + t)[j] in Elements(t);
        }
      }
    }
  }

  lemma NoElements<T(!new)>(s: seq<T>)
    ensures s == [] <==> Elements(s) == {}
  {
    if s != [] {
      assert s[0] in Elements(s);
    }
  }

  /** The members of `s` that lie in `keep`, in their order. */
  function Among<T(==)>(s: seq<T>, keep: set<T>): seq<T> {
    if s == [] then []
    else
      var init, last := Among(s[..|s| - 1], keep), s[|s| - 1];
      if last in keep then init + [last] else init
  }

  lemma {:induction false} AmongMembers<T(!new)>(s: seq<T>, keep: set<T>)
    ensures Elements(Among(s, keep)) == Elements(s) * keep
    ensures Distinct(s) ==> Distinct(Among(s, keep))
  {
    if s != [] {
      var init, last := s[..|s| - 1], s[|s| - 1];
      AmongMembers(init, keep);
      assert s == init + [last];
      assert Elements(s) == Elements(init) + {last};
      assert Elements(Among(init, keep) + [last]) == Elements(Among(init, keep)) + {last};
      if Distinct(s) {
        assert last !in Elements(init);
        assert last !in Elements(Among(init, keep));
      }
    }
  }

  /** `list.remove`: the first occurrence goes. */
  function Without<T(==)>(s: seq<T>, x: T): seq<T>
    requires x in s
  {
    if s[0] == x then s[1..] else [s[0]] + Without(s[1..], x)
  }

  /** `list.remove` followed by `list.insert(0, ...)`. */
  function ToFront<T(==)>(s: seq<T>, x: T): seq<T>
    requires x in s
  {
    [x] + Without(s, x)
  }

  lemma WithoutHead<T(!new)>(y: T, s: seq<T>, x: T)
    requires y == x || x in s
    ensures Without([y] + s, x) == if y == x then s else [y] + Without(s, x)
  {
    assert ([y] + s)[1..] == s;
  }

  lemma {:induction false} WithoutSplit<T(!new)>(pre: seq<T>, x: T, post: seq<T>)
    requires x !in pre
    ensures Without(pre + [x] + post, x) == pre + post
  {
    hide Without;
    if pre == [] {
      WithoutHead(x, post, x);
      assert pre + [x] + post == [x] + post;
    } else {
      var y, rest := pre[0], pre[1..];
      WithoutSplit(rest, x, post);
      WithoutHead(y, rest + [x] + post, x);
      assert pre == [y] + rest;
      assert pre + [x] + post == [y] + (rest + [x] + post) && pre + post == [y] + (rest + post);
    }
  }

  lemma NoAmong<T(!new)>(keep: set<T>)
    ensures Among([], keep) == []
  {}

  lemma NoneAmong<T(!new)>(s: seq<T>)
    ensures Among(s, {}) == []
  {
    if s != [] {
      NoneAmong(s[..|s| - 1]);
    }
  }

  lemma AmongSnoc<T(!new)>(s: seq<T>, x: T, keep: set<T>)
    ensures Among(s + [x], keep) == Among(s, keep) + if x in keep then [x] else []
  {
    assert (s + [x])[..|s|] == s;
  }

  lemma {:induction false} AmongConcat<T(!new)>(s: seq<T>, t: seq<T>, keep: set<T>)
    ensures Among(s + t, keep) == Among(s, keep) + Among(t, keep)
  {
    if t == [] {
      assert s + t == s;
    } else {
      var init := t[..|t| - 1];
      AmongConcat(s, init, keep);
      assert s + t == (s + init) + [t[|t| - 1]];
      AmongSnoc(s + init, t[|t| - 1], keep);
    }
  }

  /** Successive gates are one gate. */
  lemma {:induction false} AmongAmong<T(!new)>(s: seq<T>, a: set<T>, b: set<T>)
    ensures Among(Among(s, a), b) == Among(s, a * b)
  {
    if s != [] {
      var init, last := s[..|s| - 1], s[|s| - 1];
      AmongAmong(init, a, b);
      if last in a {
        AmongSnoc(Among(init, a), last, b);
      }
    }
  }

  lemma {:induction false} AmongAgrees<T(!new)>(s: seq<T>, a: set<T>, b: set<T>)
    requires forall x :: x in s ==> (x in a <==> x in b)
    ensures Among(s, a) == Among(s, b)
  {
    if s != [] {
      AmongAgrees(s[..|s| - 1], a, b);
    }
  }

  lemma AmongAll<T(!new)>(s: seq<T>, keep: set<T>)
    requires forall x :: x in s ==> x in keep
    ensures Among(s, keep) == s
  {
    if s != [] {
      AmongAll(s[..|s| - 1], keep);
    }
  }

  /** Around any position of a duplicate-free list, keeping all but that element keeps the two sides. */
  lemma AmongAround<T(!new)>(s: seq<T>, i: nat, keep: set<T>)
    requires i < |s| && Distinct(s)
    ensures s == s[..i] + [s[i]] + s[i + 1..] && s[i] !in s[..i] && s[i] !in s[i + 1..]
    ensures Among(s, keep) == Among(s[..i], keep) + (if s[i] in keep then [s[i]] else []) + Among(s[i + 1..], keep)
  {
    assert s == s[..i] + [s[i]] + s[i + 1..];
    AmongConcat(s[..i] + [s[i]], s[i + 1..], keep);
    AmongSnoc(s[..i], s[i], keep);
  }

  lemma WithoutAt<T(!new)>(s: seq<T>, i: nat)
    requires i < |s| && Distinct(s)
    ensures Without(s, s[i]) == s[..i] + s[i + 1..]
  {
    assert s == s[..i] + [s[i]] + s[i + 1..];
    assert s[i] !in s[..i];
    WithoutSplit(s[..i], s[i], s[i + 1..]);
  }

  /** Taking an element out of a duplicate-free list keeps the others and their order. */
  lemma WithoutIsAmong<T(!new)>(s: seq<T>, i: nat)
    requires i < |s| && Distinct(s)
    ensures Without(s, s[i]) == Among(s, Elements(s) - {s[i]})
  {
    hide Among, Without, Distinct;
    var keep := Elements(s) - {s[i]};
    WithoutAt(s, i);
    AmongAround(s, i, keep);
    assert forall y :: y in s[..i] ==> y in keep;
    assert forall y :: y in s[i + 1..] ==> y in keep;
    AmongAll(s[..i], keep);
    AmongAll(s[i + 1..], keep);
  }

  lemma WithoutAmong<T(!new)>(s: seq<T>, keep: set<T>, x: T)
    requires Distinct(s) && x in s && x in keep
    ensures x in Among(s, keep) && Without(Among(s, keep), x) == Among(s, keep - {x})
  {
    var kept := Among(s, keep);
    AmongMembers(s, keep);
    assert x in Elements(kept);
    var k :| 0 <= k < |kept| && kept[k] == x;
    WithoutIsAmong(kept, k);
    AmongAmong(s, keep, Elements(kept) - {x});
    AmongAgrees(s, keep * (Elements(kept) - {x}), keep - {x});
  }

  lemma {:induction false} WithoutAppend<T(!new)>(s: seq<T>, t: seq<T>, x: T)
    requires x in s
    ensures Without(s + t, x) == Without(s, x) + t
  {
    assert s + t == [s[0]] + (s[1..] + t);
    if s[0] != x {
      WithoutAppend(s[1..], t, x);
    }
  }

  lemma ToFrontPermutes<T(!new)>(s: seq<T>, x: T)
    requires x in s && Distinct(s)
    ensures ToFront(s, x) == [x] + Among(s, Elements(s) - {x})
    ensures Elements(ToFront(s, x)) == Elements(s) && Distinct(ToFront(s, x))
  {
    var i :| 0 <= i < |s| && s[i] == x;
    WithoutIsAmong(s, i);
    AmongMembers(s, Elements(s) - {x});
    var rest := Without(s, x);
    assert Elements([x] + rest) == {x} + Elements(rest);
    assert x !in Elements(rest);
  }

  /** A gate on an already filtered list filters the original once more. */
  lemma GateOfAmong<T(!new)>(s: seq<T>, open: set<T>, closed: set<T>)
    ensures Among(Among(s, open), Elements(Among(s, open)) - closed) == Among(s, open - closed)
    ensures Among(Among(s, open), closed) == Among(s, open * closed)
  {
    AmongMembers(s, open);
    var kept := Elements(Among(s, open)) - closed;
    AmongAmong(s, open, kept);
    AmongAmong(s, open, closed);
    assert forall x :: x in s ==> x in Elements(s);
    AmongAgrees(s, open * kept, open - closed);
  }

  lemma GateStep<T(!new)>(list: seq<T>, i: nat, closed: set<T>, open: seq<T>)
    requires Distinct(list) && i < |list|
    requires open == Among(list[..i], Elements(list) - closed) + list[i..]
    ensures Among(list[..i + 1], closed) == Among(list[..i], closed) + if list[i] in closed then [list[i]] else []
    ensures list[i] in open
    ensures Among(list[..i + 1], Elements(list) - closed) + list[i + 1..] ==
            if list[i] in closed then Without(open, list[i]) else open
  {
    var x, keep := list[i], Elements(list) - closed;
    assert list[..i + 1] == list[..i] + [x] && list[i..] == [x] + list[i + 1..];
    AmongSnoc(list[..i], x, keep);
    AmongSnoc(list[..i], x, closed);
    assert open == Among(list[..i], keep) + [x] + list[i + 1..];
    assert x in open;
    if x in closed {
      AmongMembers(list[..i], keep);
      assert x !in Elements(Among(list[..i], keep));
      WithoutSplit(Among(list[..i], keep), x, list[i + 1..]);
    }
  }

  /** One in-place gate: what it leaves is the open part of the list; what it bars is appended to the barred list. */
  method Gate<T(==,!new)>(list: seq<T>, barred: seq<T>, closed: set<T>)
    returns (open: seq<T>, out: seq<T>, hits: seq<T>)
    requires Distinct(list)
    ensures open == Among(list, Elements(list) - closed)
    ensures hits == Among(list, closed) && out == barred + hits
  {
    hide Among, Without, Distinct;
    open, out, hits := list, barred, [];
    NoAmong<T>(Elements(list) - closed);
    NoAmong<T>(closed);
    for i := 0 to |list|
      invariant open == Among(list[..i], Elements(list) - closed) + list[i..]
      invariant hits == Among(list[..i], closed) && out == barred + hits
    {
      GateStep(list, i, closed, open);
      if list[i] in closed {
        open := Without(open, list[i]);
        out := out + [list[i]];
        hits := hits + [list[i]];
      }
    }
    assert list[..|list|] == list;
  }

  lemma DemoteStep<T(!new)>(list: seq<T>, marked: seq<T>, i: nat, r: seq<T>)
    requires Distinct(list) && Distinct(marked) && Elements(marked) <= Elements(list) && i < |marked|
    requires r == Among(list, Elements(list) - Elements(marked[..i])) + marked[..i]
    ensures marked[i] in r
    ensures Without(r, marked[i]) + [marked[i]] ==
            Among(list, Elements(list) - Elements(marked[..i + 1])) + marked[..i + 1]
  {
    var x, keep := marked[i], Elements(list) - Elements(marked[..i]);
    assert x in Elements(marked);
    WithoutAmong(list, keep, x);
    WithoutAppend(Among(list, keep), marked[..i], x);
    assert marked[..i + 1] == marked[..i] + [x];
    assert Elements(marked[..i + 1]) == Elements(marked[..i]) + {x};
    assert keep - {x} == Elements(list) - Elements(marked[..i + 1]);
  }

  /** The marked elements go to the back, one at a time; both parts keep their order. */
  method Demote<T(==,!new)>(list: seq<T>, marked: seq<T>) returns (r: seq<T>)
    requires Distinct(list) && Distinct(marked) && Elements(marked) <= Elements(list)
    ensures r == Among(list, Elements(list) - Elements(marked)) + marked
  {
    r := list;
    AmongAll(list, Elements(list));
    assert Elements(list) - Elements(marked[..0]) == Elements(list);
    for i := 0 to |marked|
      invariant r == Among(list, Elements(list) - Elements(marked[..i])) + marked[..i]
    {
      DemoteStep(list, marked, i, r);
      r := Without(r, marked[i]) + [marked[i]];
    }
    assert marked[..|marked|] == marked;
  }
}
