/**
 * The loop every fetch shares:
 *   for unit in response.json(): self.children.append(Child(unit[...], ...))
 * One child is appended per unit, in response order, until a unit raises;
 * the children appended before that stay in place.
 */
module Harvest {
  import opened Wrappers
  import opened Failures
  import opened Json
  import opened Rest

  /** The children one loop appended, and the exception that stopped it. */
  datatype Collected<E> = Collected(items: seq<E>, thrown: Option<Fault>)

  /** Reference description of a fetch: `after` is the child list that
      results from `before` when the reply was `reply` and each unit is
      turned into a child by `build`, and `thrown` is how the fetch ended. */
  ghost predicate Grew<E>(before: seq<E>, after: seq<E>, reply: Result<seq<Json>, Fault>,
                          build: Json -> Result<E, Fault>, thrown: Option<Fault>)
  {
    match reply
    case Failure(f) => after == before && thrown == Some(f)
    case Success(units) =>
      && |before| <= |after| <= |before| + |units|
      && after[..|before|] == before
      && (forall i :: |before| <= i < |after| ==> build(units[i - |before|]) == Success(after[i]))
      && (thrown.None? <==> |after| == |before| + |units|)
      && (thrown.Some? ==> build(units[|after| - |before|]) == Failure(thrown.value))
  }

  /** The loop body run over `units`, one append per unit. */
  function Collect<E>(units: seq<Json>, build: Json -> Result<E, Fault>): (c: Collected<E>)
    ensures Grew([], c.items, Success(units), build, c.thrown)
    decreases |units|
  {
    if units == [] then Collected([], None)
    else
      match build(units[0])
      case Failure(f) => Collected([], Some(f))
      case Success(e) =>
        var rest := Collect(units[1..], build);
        assert forall i :: 1 <= i < |units| ==> units[i] == units[1..][i - 1];
        Collected([e] + rest.items, rest.thrown)
  }

  /** A whole fetch from a fresh child list: request, decode, loop. */
  function Gather<E>(net: Network, uri: string, data: Payload, build: Json -> Result<E, Fault>): (c: Collected<E>)
    ensures Grew([], c.items, Reply(net, uri, data), build, c.thrown)
  {
    match Reply(net, uri, data)
    case Failure(f) => Collected([], Some(f))
    case Success(units) => Collect(units, build)
  }

  /** Appending to a non-empty list behaves as appending to an empty one. */
  lemma {:induction false} GrewExtend<E>(before: seq<E>, items: seq<E>, reply: Result<seq<Json>, Fault>,
                                         build: Json -> Result<E, Fault>, thrown: Option<Fault>)
    requires Grew([], items, reply, build, thrown)
    ensures Grew(before, before + items, reply, build, thrown)
  {
  }

  /** The reference description admits exactly one outcome. */
  lemma {:induction false} GrewUnique<E>(before: seq<E>, a1: seq<E>, a2: seq<E>, reply: Result<seq<Json>, Fault>,
                                         build: Json -> Result<E, Fault>, t1: Option<Fault>, t2: Option<Fault>)
    requires Grew(before, a1, reply, build, t1)
    requires Grew(before, a2, reply, build, t2)
    ensures a1 == a2 && t1 == t2
  {
    if reply.Success? {
      var n := |before|;
      var units := reply.value;
      // Both lists agree wherever both are defined past the prefix.
      forall i | n <= i < |a1| && i < |a2|
        ensures a1[i] == a2[i]
      {
        assert build(units[i - n]) == Success(a1[i]);
      }
      if |a1| < |a2| {
        GrewChild(before, a2, reply, build, t2, |a1|);
        assert false;
      } else if |a2| < |a1| {
        GrewChild(before, a1, reply, build, t1, |a2|);
        assert false;
      }
      assert a1 == a2 by {
        assert a1[..n] == before == a2[..n];
        forall i | 0 <= i < |a1| ensures a1[i] == a2[i] {
          if i < n {
            assert a1[i] == a1[..n][i] && a2[i] == a2[..n][i];
          }
        }
      }
    }
  }

  /** The child at position `i` of a grown list was built from the unit at
      the same position of the reply. */
  lemma GrewChild<E>(before: seq<E>, after: seq<E>, reply: Result<seq<Json>, Fault>,
                     build: Json -> Result<E, Fault>, thrown: Option<Fault>, i: int)
    requires Grew(before, after, reply, build, thrown)
    requires reply.Success? && |before| <= i < |after|
    ensures build(reply.value[i - |before|]) == Success(after[i])
  {
  }

  /** What growing an empty list says, position by position. */
  lemma GrewFromEmpty<E>(items: seq<E>, reply: Result<seq<Json>, Fault>,
                         build: Json -> Result<E, Fault>, thrown: Option<Fault>)
    requires Grew([], items, reply, build, thrown)
    ensures reply.Failure? ==> items == [] && thrown == Some(reply.error)
    ensures reply.Success? ==> forall i :: 0 <= i < |items| ==> build(reply.value[i]) == Success(items[i])
    ensures reply.Success? ==> (thrown.None? <==> forall i :: 0 <= i < |reply.value| ==> build(reply.value[i]).Success?)
    ensures reply.Success? && thrown.None? ==> |items| == |reply.value|
    ensures reply.Success? && thrown.Some? ==>
              |items| < |reply.value| && build(reply.value[|items|]) == Failure(thrown.value)
  {
  }
}
