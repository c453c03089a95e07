/** The shape shared by every extraction loop of the scripts: a `for` loop over a list whose body
    appends zero or more records (`continue` appends none) and may raise; an exception that the
    body does not catch ends the loop and propagates out of the enclosing function. */
module Collect {
  import opened PyJson

  /** The records appended by running `step` on the elements of `s` in order, or the first
      exception raised. */
  function FlatCollect<C, A, B>(step: (C, A) -> Py<seq<B>>, ctx: C, s: seq<A>): Py<seq<B>>
    decreases |s|
  {
    if s == [] then Ok([])
    else
      var acc :- FlatCollect(step, ctx, s[..|s| - 1]);
      var out :- step(ctx, s[|s| - 1]);
      Ok(acc + out)
  }

  /** One more iteration of the loop. */
  lemma FlatCollectNext<C, A, B>(step: (C, A) -> Py<seq<B>>, ctx: C, s: seq<A>, i: nat)
    requires i < |s|
    ensures FlatCollect(step, ctx, s[..i + 1]) ==
              (match FlatCollect(step, ctx, s[..i])
               case Raise(e) => Raise(e)
               case Ok(acc) =>
                 (match step(ctx, s[i])
                  case Raise(e) => Raise(e)
                  case Ok(out) => Ok(acc + out)))
  {
    assert s[..i + 1][..i] == s[..i];
  }

  /** Once an iteration raises, the loop's outcome is that exception, whatever follows. */
  lemma {:induction false} FlatCollectStops<C, A, B>(step: (C, A) -> Py<seq<B>>, ctx: C, s: seq<A>, k: nat)
    requires k <= |s|
    requires FlatCollect(step, ctx, s[..k]).Raise?
    ensures FlatCollect(step, ctx, s) == FlatCollect(step, ctx, s[..k])
    decreases |s| - k
  {
    if k < |s| {
      FlatCollectNext(step, ctx, s, k);
      FlatCollectStops(step, ctx, s, k + 1);
    } else {
      assert s[..k] == s;
    }
  }

  /** The loop completes exactly when no iteration raises. */
  lemma {:induction false} FlatCollectOkIff<C, A, B>(step: (C, A) -> Py<seq<B>>, ctx: C, s: seq<A>)
    ensures FlatCollect(step, ctx, s).Ok? <==> forall i :: 0 <= i < |s| ==> step(ctx, s[i]).Ok?
    decreases |s|
  {
    if s != [] {
      var init := s[..|s| - 1];
      FlatCollectOkIff(step, ctx, init);
      assert forall i :: 0 <= i < |init| ==> init[i] == s[i];
    }
  }

  /** The loop read from the front: the first iteration's records, then the rest of the loop's;
      the first exception either raises is the outcome. */
  lemma {:induction false} FlatCollectCons<C, A, B>(step: (C, A) -> Py<seq<B>>, ctx: C, s: seq<A>)
    requires s != []
    ensures FlatCollect(step, ctx, s) ==
              (match step(ctx, s[0])
               case Raise(e) => Raise(e)
               case Ok(out) =>
                 (match FlatCollect(step, ctx, s[1..])
                  case Raise(e) => Raise(e)
                  case Ok(rest) => Ok(out + rest)))
    decreases |s|
  {
    if |s| == 1 {
      assert s[..|s| - 1] == [] && s[1..] == [];
      match step(ctx, s[0]) {
        case Raise(e) =>
        case Ok(out) =>
          var none: seq<B> := [];
          assert none + out == out + none;
      }
    } else {
      var init := s[..|s| - 1];
      FlatCollectCons(step, ctx, init);
      assert init[0] == s[0];
      assert s[1..][..|s[1..]| - 1] == init[1..];
      assert s[1..][|s[1..]| - 1] == s[|s| - 1];
      match step(ctx, s[0]) {
        case Raise(e) =>
        case Ok(out) =>
          match FlatCollect(step, ctx, init[1..]) {
            case Raise(e) =>
            case Ok(mid) =>
              match step(ctx, s[|s| - 1]) {
                case Raise(e) =>
                case Ok(last) =>
                  assert out + mid + last == out + (mid + last);
              }
          }
      }
    }
  }

  /** When every iteration appends exactly one record, the records match the elements one to one. */
  lemma {:induction false} FlatCollectOneEach<C, A, B>(step: (C, A) -> Py<seq<B>>, ctx: C, s: seq<A>)
    requires FlatCollect(step, ctx, s).Ok?
    requires forall a :: step(ctx, a).Ok? ==> |step(ctx, a).value| == 1
    ensures |FlatCollect(step, ctx, s).value| == |s|
    ensures forall i :: 0 <= i < |s| ==> step(ctx, s[i]) == Ok([FlatCollect(step, ctx, s).value[i]])
    decreases |s|
  {
    if s != [] {
      var init := s[..|s| - 1];
      FlatCollectOneEach(step, ctx, init);
      var acc := FlatCollect(step, ctx, init).value;
      var out := step(ctx, s[|s| - 1]).value;
      assert FlatCollect(step, ctx, s).value == acc + out;
      forall i | 0 <= i < |s|
        ensures step(ctx, s[i]) == Ok([FlatCollect(step, ctx, s).value[i]])
      {
        if i < |init| {
          assert s[i] == init[i];
        } else {
          assert out == [out[0]];
        }
      }
    }
  }

  /** A property every appended record has is a property of the whole result. */
  lemma {:induction false} FlatCollectAll<C, A, B>(step: (C, A) -> Py<seq<B>>, ctx: C, s: seq<A>, p: B -> bool)
    requires FlatCollect(step, ctx, s).Ok?
    requires forall i, b :: 0 <= i < |s| && step(ctx, s[i]).Ok? && b in step(ctx, s[i]).value ==> p(b)
    ensures forall b :: b in FlatCollect(step, ctx, s).value ==> p(b)
    decreases |s|
  {
    if s != [] {
      var init := s[..|s| - 1];
      assert forall j :: 0 <= j < |init| ==> init[j] == s[j];
      FlatCollectAll(step, ctx, init, p);
    }
  }

  /** The elements of `s` that `keep` accepts, in order. */
  function FilterBy<C, A>(keep: (C, A) -> bool, ctx: C, s: seq<A>): (r: seq<A>)
    ensures |r| <= |s|
    decreases |s|
  {
    if s == [] then []
    else FilterBy(keep, ctx, s[..|s| - 1]) + (if keep(ctx, s[|s| - 1]) then [s[|s| - 1]] else [])
  }

  /** A loop whose iterations append one record for each element `keep` accepts and none for the
      others builds, in order, one record per accepted element. */
  lemma {:induction false} FlatCollectFilter<C, A, B>(step: (C, A) -> Py<seq<B>>, keep: (C, A) -> bool, ctx: C, s: seq<A>)
    requires FlatCollect(step, ctx, s).Ok?
    requires forall a :: step(ctx, a).Ok? ==> |step(ctx, a).value| == (if keep(ctx, a) then 1 else 0)
    ensures |FlatCollect(step, ctx, s).value| == |FilterBy(keep, ctx, s)|
    ensures forall k :: 0 <= k < |FilterBy(keep, ctx, s)| ==>
              step(ctx, FilterBy(keep, ctx, s)[k]) == Ok([FlatCollect(step, ctx, s).value[k]])
    decreases |s|
  {
    if s != [] {
      var init := s[..|s| - 1];
      var last := s[|s| - 1];
      FlatCollectFilter(step, keep, ctx, init);
      var acc := FlatCollect(step, ctx, init).value;
      var out := step(ctx, last).value;
      var kept := FilterBy(keep, ctx, init);
      assert FlatCollect(step, ctx, s).value == acc + out;
      if keep(ctx, last) {
        assert FilterBy(keep, ctx, s) == kept + [last];
        assert out == [out[0]];
      } else {
        assert FilterBy(keep, ctx, s) == kept;
        assert out == [];
      }
    }
  }

  /** An element is kept exactly when it occurs in the input and `keep` accepts it. */
  lemma {:induction false} FilterByMembers<C, A>(keep: (C, A) -> bool, ctx: C, s: seq<A>)
    ensures forall x :: x in FilterBy(keep, ctx, s) <==> x in s && keep(ctx, x)
    decreases |s|
  {
    if s != [] {
      var init := s[..|s| - 1];
      FilterByMembers(keep, ctx, init);
      assert s == init + [s[|s| - 1]];
    }
  }
}
