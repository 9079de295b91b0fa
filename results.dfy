/** Option and Result values, the ways the scraping code can fail, and the loops it runs. */
module Results {

  datatype Option<T> = None | Some(value: T)

  /** Why a step of the chef or of the page scraper stops with an exception. */
  datatype Error =
    | NoneElement(selector: string)   // a BeautifulSoup lookup gave None and the code used it anyway
    | KeyError(key: string)           // a dictionary key or an HTML attribute is missing
    | NoMatch(pattern: string)        // `re.search` found nothing and `.group` was called on None

  datatype Result<T> = Ok(value: T) | Err(error: Error)

  /** What one iteration adds to the output list: nothing, or one element. */
  function Kept<U>(o: Option<U>): seq<U>
  {
    if o.Some? then [o.value] else []
  }

  /**
   * A loop over a list whose `k`-th iteration either raises (`Err`), skips (`Ok(None)`) or
   * appends one element (`Ok(Some(x))`): the first exception ends the loop, otherwise the
   * appended elements come out in iteration order.
   */
  function Collect<U>(steps: seq<Result<Option<U>>>): (r: Result<seq<U>>)
    ensures r.Ok? ==> |r.value| <= |steps|
  {
    if steps == [] then Ok([])
    else match steps[0]
      case Err(e) => Err(e)
      case Ok(o) =>
        match Collect(steps[1..])
        case Err(e) => Err(e)
        case Ok(rest) => Ok(Kept(o) + rest)
  }

  /** Running the loop over `a + b` is running it over `a` and then, if nothing was raised, over `b`. */
  lemma {:induction false} CollectAppend<U>(a: seq<Result<Option<U>>>, b: seq<Result<Option<U>>>)
    ensures Collect(a + b) ==
      match Collect(a)
      case Err(e) => Err(e)
      case Ok(x) => (match Collect(b) case Err(e) => Err(e) case Ok(y) => Ok(x + y))
  {
    if a == [] {
      assert a + b == b;
      if Collect(b).Ok? {
        assert [] + Collect(b).value == Collect(b).value;
      }
    } else {
      assert (a + b)[0] == a[0];
      assert (a + b)[1..] == a[1..] + b;
      CollectAppend(a[1..], b);
      if Collect(a).Ok? && Collect(b).Ok? {
        var x := Collect(a[1..]).value;
        assert Kept(a[0].value) + (x + Collect(b).value) == (Kept(a[0].value) + x) + Collect(b).value;
      }
    }
  }

  /** The loop raises exactly when some iteration raises, and then it raises the first such error. */
  lemma {:induction false} CollectErr<U>(steps: seq<Result<Option<U>>>)
    ensures Collect(steps).Ok? <==> forall k :: 0 <= k < |steps| ==> steps[k].Ok?
    ensures Collect(steps).Err? ==>
      exists k :: 0 <= k < |steps| && steps[k] == Err(Collect(steps).error) &&
                  forall j :: 0 <= j < k ==> steps[j].Ok?
  {
    if steps != [] {
      CollectErr(steps[1..]);
      assert forall k :: 1 <= k < |steps| ==> steps[k] == steps[1..][k - 1];
      if steps[0].Ok? && Collect(steps[1..]).Err? {
        var k :| 0 <= k < |steps[1..]| && steps[1..][k] == Err(Collect(steps[1..]).error) &&
                 forall j :: 0 <= j < k ==> steps[1..][j].Ok?;
        assert steps[k + 1] == steps[1..][k];
        assert forall j :: 1 <= j < k + 1 ==> steps[j] == steps[1..][j - 1];
      }
    }
  }

  /** One more iteration of the loop: after the first `i` iterations produced `acc`, iteration `i`
      either raises the loop's error or extends `acc` by what it keeps. */
  lemma {:induction false} CollectStep<U>(steps: seq<Result<Option<U>>>, i: nat, acc: seq<U>)
    requires i < |steps| && Collect(steps[..i]) == Ok(acc)
    ensures steps[i].Err? ==> Collect(steps) == Err(steps[i].error)
    ensures steps[i].Ok? ==> Collect(steps[..i + 1]) == Ok(acc + Kept(steps[i].value))
    ensures steps[i] == Ok(None) ==> Collect(steps[..i + 1]) == Ok(acc)
  {
    assert steps[..i + 1] == steps[..i] + [steps[i]];
    CollectAppend(steps[..i], [steps[i]]);
    assert Collect([steps[i]][1..]) == Ok([]);
    if steps[i].Err? {
      assert steps == steps[..i + 1] + steps[i + 1..];
      CollectAppend(steps[..i + 1], steps[i + 1..]);
    } else {
      assert Kept(steps[i].value) + [] == Kept(steps[i].value);
      assert acc + [] == acc;
    }
  }

  /** `P` holds of each pair of corresponding elements of `xs` and `ys`. */
  ghost predicate Pairwise<A, B>(P: (A, B) -> bool, xs: seq<A>, ys: seq<B>)
  {
    |xs| == |ys| && forall k :: 0 <= k < |xs| ==> P(xs[k], ys[k])
  }

  /** Sequences related pairwise stay so with one more related pair in front. */
  lemma {:induction false} PairwiseCons<A, B>(P: (A, B) -> bool, x: A, y: B, xs: seq<A>, ys: seq<B>)
    requires P(x, y) && Pairwise(P, xs, ys)
    ensures Pairwise(P, [x] + xs, [y] + ys)
  {
    forall k | 0 <= k < |xs| + 1
      ensures P(([x] + xs)[k], ([y] + ys)[k])
    {
      if k == 0 {
        assert ([x] + xs)[0] == x && ([y] + ys)[0] == y;
      } else {
        assert P(xs[k - 1], ys[k - 1]);
        assert ([x] + xs)[k] == xs[k - 1] && ([y] + ys)[k] == ys[k - 1];
      }
    }
  }
}
