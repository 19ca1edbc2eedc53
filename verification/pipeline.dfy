/**
 * The middleware pipeline of an emission: each middleware receives the event
 * name and the previous middleware's output; one that throws aborts the rest.
 */
module Pipeline {
  import opened Wrappers

  /** A payload transform; `None` means the middleware threw. */
  type Middleware<!P> = (string, P) -> Option<P>

  /**
   * Left fold of `mws` over `payload`, in registration order: the last
   * middleware is applied to the result of all the ones before it.
   */
  function Run<P>(mws: seq<Middleware<P>>, event: string, payload: P): Option<P>
    decreases |mws|
  {
    if |mws| == 0 then Some(payload)
    else
      match Run(mws[..|mws| - 1], event, payload)
      case None => None
      case Some(q) => mws[|mws| - 1](event, q)
  }

  /** Runs `mws` on the outcome of an earlier stage; a fault there stays a fault. */
  function Then<P>(prior: Option<P>, mws: seq<Middleware<P>>, event: string): Option<P> {
    match prior
    case None => None
    case Some(q) => Run(mws, event, q)
  }

  /** Registering one more middleware runs it last, on what the others produced. */
  lemma RunAppendOne<P>(mws: seq<Middleware<P>>, m: Middleware<P>, event: string, payload: P)
    ensures Run(mws + [m], event, payload) == Then(Run(mws, event, payload), [m], event)
    ensures Run(mws + [m], event, payload) ==
            match Run(mws, event, payload)
            case None => None
            case Some(q) => m(event, q)
  {
    assert (mws + [m])[..|mws + [m]| - 1] == mws;
    assert [m][..0] == [];
    match Run(mws, event, payload)
    case None =>
    case Some(q) =>
      assert Run([m][..0], event, q) == Some(q);
  }

  /**
   * Running two pools one after the other is running their concatenation:
   * global middleware followed by event-specific middleware is one fold.
   */
  lemma {:induction false} RunConcat<P>(a: seq<Middleware<P>>, b: seq<Middleware<P>>, event: string, payload: P)
    ensures Run(a + b, event, payload) == Then(Run(a, event, payload), b, event)
    decreases |b|
  {
    if |b| == 0 {
      assert a + b == a;
    } else {
      var b' := b[..|b| - 1];
      var m := b[|b| - 1];
      assert a + b == (a + b') + [m];
      assert b == b' + [m];
      RunConcat(a, b', event, payload);
      RunAppendOne(a + b', m, event, payload);
      match Run(a, event, payload)
      case None =>
      case Some(q) =>
        RunAppendOne(b', m, event, q);
    }
  }

  /** The first middleware is applied to the emitted payload itself. */
  lemma RunFirst<P>(mws: seq<Middleware<P>>, event: string, payload: P)
    requires |mws| > 0
    ensures Run(mws, event, payload) == Then(mws[0](event, payload), mws[1..], event)
  {
    assert mws == [mws[0]] + mws[1..];
    RunConcat([mws[0]], mws[1..], event, payload);
    assert [mws[0]][..0] == [];
  }

  /** Middleware `k` is reached, and throws. */
  ghost predicate FaultsAt<P>(mws: seq<Middleware<P>>, event: string, payload: P, k: int)
    requires 0 <= k < |mws|
  {
    Then(Run(mws[..k], event, payload), [mws[k]], event).None? && Run(mws[..k], event, payload).Some?
  }

  /** The pipeline fails exactly when some middleware is reached and throws. */
  lemma {:induction false} RunFailsIffSomeFault<P>(mws: seq<Middleware<P>>, event: string, payload: P)
    ensures Run(mws, event, payload).None? <==>
            exists k :: 0 <= k < |mws| && FaultsAt(mws, event, payload, k)
    decreases |mws|
  {
    if |mws| > 0 {
      var n := |mws| - 1;
      var init := mws[..n];
      RunFailsIffSomeFault(init, event, payload);
      RunAppendOne(init, mws[n], event, payload);
      assert mws == init + [mws[n]];
      forall k | 0 <= k < n ensures FaultsAt(mws, event, payload, k) == FaultsAt(init, event, payload, k) {
        assert mws[..k] == init[..k];
      }
      if Run(init, event, payload).None? {
        var k :| 0 <= k < n && FaultsAt(init, event, payload, k);
        assert FaultsAt(mws, event, payload, k);
      } else if Run(mws, event, payload).None? {
        assert FaultsAt(mws, event, payload, n);
      } else {
        forall k | 0 <= k < |mws| ensures !FaultsAt(mws, event, payload, k) {
        }
      }
    }
  }
}
