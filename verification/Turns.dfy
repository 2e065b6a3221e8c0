/** A state passed from one handler to the next, each of which sees and changes only its own part of it. */
module Turns {

  /** What a handler leaves: the state, and the log of what it did. */
  datatype Turn<S, E> = Turn(state: S, log: seq<E>)

  /** The first n handlers in turn, each on the state that the last one left. */
  function InTurn<S, E>(h: (nat, S) -> Turn<S, E>, start: S, n: nat): Turn<S, E> {
    if n == 0 then Turn(start, [])
    else
      var before := InTurn(h, start, n - 1);
      var now := h(n - 1, before.state);
      Turn(now.state, before.log + now.log)
  }

  /** Handler k does what `due` says to its own part of the state, and nothing to the parts of the others. */
  ghost predicate ActsAt<S, E, V>(n: nat, h: (nat, S) -> Turn<S, E>, part: (nat, S) -> V, due: (nat, V) -> Turn<V, E>,
                                k: nat, state: S)
  {
    var now := h(k, state);
    && Turn(part(k, now.state), now.log) == due(k, part(k, state))
    && forall i | 0 <= i < n && i != k :: part(i, now.state) == part(i, state)
  }

  ghost predicate ActsAlone<S(!new), E, V>(n: nat, h: (nat, S) -> Turn<S, E>, ready: S -> bool, part: (nat, S) -> V,
                                          due: (nat, V) -> Turn<V, E>)
  {
    forall k: nat, state | k < n && ready(state) :: ready(h(k, state).state) && ActsAt(n, h, part, due, k, state)
  }

  lemma {:induction false} InTurnReady<S(!new), E, V>(n: nat, h: (nat, S) -> Turn<S, E>, ready: S -> bool,
                                                part: (nat, S) -> V, due: (nat, V) -> Turn<V, E>, start: S, m: nat)
    requires ActsAlone(n, h, ready, part, due) && ready(start) && m <= n
    ensures ready(InTurn(h, start, m).state)
  {
    if m > 0 {
      InTurnReady(n, h, ready, part, due, start, m - 1);
    }
  }

  /** Before its turn a part is as it was; from then on it is as its own handler makes it. */
  lemma {:induction false} PartInTurn<S(!new), E, V>(n: nat, h: (nat, S) -> Turn<S, E>, ready: S -> bool,
                                               part: (nat, S) -> V, due: (nat, V) -> Turn<V, E>, start: S,
                                               m: nat, i: nat)
    requires ActsAlone(n, h, ready, part, due) && ready(start) && m <= n && i < n
    ensures part(i, InTurn(h, start, m).state) == if i < m then due(i, part(i, start)).state else part(i, start)
  {
    if m > 0 {
      var before := InTurn(h, start, m - 1).state;
      InTurnReady(n, h, ready, part, due, start, m - 1);
      PartInTurn(n, h, ready, part, due, start, m - 1, i);
      assert ActsAt(n, h, part, due, m - 1, before);
    }
  }

  /** Each handler does what it would have done had it been the first. */
  lemma TurnsAreIndependent<S(!new), E, V>(n: nat, h: (nat, S) -> Turn<S, E>, ready: S -> bool, part: (nat, S) -> V,
                                     due: (nat, V) -> Turn<V, E>, start: S, i: nat)
    requires ActsAlone(n, h, ready, part, due) && ready(start) && i < n
    ensures Turn(part(i, InTurn(h, start, n).state), h(i, InTurn(h, start, i).state).log) == due(i, part(i, start))
  {
    PartInTurn(n, h, ready, part, due, start, n, i);
    PartInTurn(n, h, ready, part, due, start, i, i);
    InTurnReady(n, h, ready, part, due, start, i);
    assert ActsAt(n, h, part, due, i, InTurn(h, start, i).state);
  }

  lemma CountAppend<E>(a: seq<E>, b: seq<E>, e: E)
    ensures multiset(a + b)[e] == multiset(a)[e] + multiset(b)[e]
  {
  }

  lemma CountAbsent<E>(a: seq<E>, e: E)
    requires e !in a
    ensures multiset(a)[e] == 0
  {
  }

  /** When every entry names the handler that made it, the log holds exactly what each of them logged. */
  lemma {:induction false} CountInTurn<S(!new), E>(h: (nat, S) -> Turn<S, E>, start: S, n: nat, e: E, owner: nat)
    requires forall k: nat, state | k != owner :: e !in h(k, state).log
    ensures multiset(InTurn(h, start, n).log)[e]
            == if owner < n then multiset(h(owner, InTurn(h, start, owner).state).log)[e] else 0
  {
    if n > 0 {
      var before := InTurn(h, start, n - 1);
      var now := h(n - 1, before.state);
      CountInTurn(h, start, n - 1, e, owner);
      CountAppend(before.log, now.log, e);
      if owner != n - 1 {
        CountAbsent(now.log, e);
      }
    }
  }
}
