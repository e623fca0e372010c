/** Option type and facts about sequences shared by the other modules. */
module Common {

  datatype Option<+T> = None | Some(value: T)

  function Max(a: int, b: int): int { if a <= b then b else a }

  function Flatten<T>(ss: seq<seq<T>>): seq<T> {
    if ss == [] then [] else Flatten(ss[..|ss| - 1]) + ss[|ss| - 1]
  }

  lemma FlattenSnoc<T>(ss: seq<seq<T>>, s: seq<T>)
    ensures Flatten(ss + [s]) == Flatten(ss) + s
  {
    assert (ss + [s])[..|ss|] == ss;
  }

  lemma FlattenNil<T>()
    ensures Flatten<T>([]) == []
  {
  }

  lemma {:induction false} FlattenConcat<T>(xs: seq<seq<T>>, ys: seq<seq<T>>)
    ensures Flatten(xs + ys) == Flatten(xs) + Flatten(ys)
  {
    hide Flatten;
    if ys == [] {
      FlattenNil<T>();
      assert xs + ys == xs;
    } else {
      var front, last := ys[..|ys| - 1], ys[|ys| - 1];
      FlattenConcat(xs, front);
      assert xs + ys == (xs + front) + [last] && ys == front + [last];
      FlattenSnoc(xs + front, last);
      FlattenSnoc(front, last);
    }
  }

  /** `sub` is what is left of `all` after deleting some elements, order kept. */
  ghost predicate Subsequence<T>(sub: seq<T>, all: seq<T>) {
    if sub == [] then true
    else all != [] && (Subsequence(sub, all[..|all| - 1])
                       || (sub[|sub| - 1] == all[|all| - 1] && Subsequence(sub[..|sub| - 1], all[..|all| - 1])))
  }

  lemma {:induction false} SubsequenceSelf<T>(s: seq<T>)
    ensures Subsequence(s, s)
  {
    if s != [] {
      SubsequenceSelf(s[..|s| - 1]);
    }
  }

  lemma {:induction false} SubsequenceExtend<T>(sub: seq<T>, all: seq<T>, more: seq<T>)
    requires Subsequence(sub, all)
    ensures Subsequence(sub, all + more)
  {
    if more == [] {
      assert all + more == all;
    } else {
      SubsequenceExtend(sub, all, more[..|more| - 1]);
      assert (all + more)[..|all + more| - 1] == all + more[..|more| - 1];
    }
  }

  lemma {:induction false} SubsequenceConcat<T>(sub: seq<T>, all: seq<T>, sub': seq<T>, all': seq<T>)
    requires Subsequence(sub, all) && Subsequence(sub', all')
    ensures Subsequence(sub + sub', all + all')
    decreases |all'|
  {
    if sub' == [] {
      assert sub + sub' == sub;
      SubsequenceExtend(sub, all, all');
    } else {
      var front' := all'[..|all'| - 1];
      assert (all + all')[..|all + all'| - 1] == all + front';
      if Subsequence(sub', front') {
        SubsequenceConcat(sub, all, sub', front');
      } else {
        SubsequenceConcat(sub, all, sub'[..|sub'| - 1], front');
        assert (sub + sub')[..|sub + sub'| - 1] == sub + sub'[..|sub'| - 1];
      }
    }
  }
}
