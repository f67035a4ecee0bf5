/** Handing work items to agents, round robin. */
module Dispatcher {
  import opened Events
  import opened Planner

  /** `assign_items`: round robin over the agents, or one fallback agent if there are none. */
  function AssignItems(items: seq<WorkItem>, agents: seq<Uuid>, fallback: Uuid): (dealt: seq<WorkItem>)
    ensures |dealt| == |items|
    ensures forall k :: 0 <= k < |items| ==>
              dealt[k] == items[k].(status := Assigned, agent := dealt[k].agent) && dealt[k].agent.Some?
  {
    seq(|items|, k requires 0 <= k < |items| =>
      items[k].(status := Assigned, agent := Some(if agents == [] then fallback else agents[k % |agents|])))
  }

  /** The first items go to the agents in order, and then it begins again with the first agent. */
  lemma {:induction false} DealtInTurn(items: seq<WorkItem>, agents: seq<Uuid>, fallback: Uuid, k: nat)
    requires k < |items|
    ensures var dealt := AssignItems(items, agents, fallback);
            && (agents == [] ==> dealt[k].agent == Some(fallback))
            && (k < |agents| ==> dealt[k].agent == Some(agents[k]))
            && (agents != [] && |agents| <= k ==> dealt[k].agent == dealt[k - |agents|].agent)
  {
    if agents != [] {
      var d := |agents|;
      assert k == (k / d) * d + k % d;
      if k < d {
        DivModUnique(k, d, 0, k);
      } else {
        OneTurnBack(k, d, k / d, k % d);
        DivModUnique(k - d, d, k / d - 1, k % d);
      }
    }
  }

  lemma {:induction false} OneTurnBack(n: nat, d: nat, q: nat, r: nat)
    requires r < d <= n && n == q * d + r
    ensures q >= 1 && n - d == (q - 1) * d + r
  {
    assert (q - 1) * d == q * d - d;
  }

  function Load(items: seq<WorkItem>, agent: Uuid): nat {
    if items == [] then 0
    else Load(items[..|items| - 1], agent) + if items[|items| - 1].agent == Some(agent) then 1 else 0
  }

  /** How many of the first n round-robin turns fall on position a. */
  function Turns(n: nat, a: nat, agents: nat): nat
    requires a < agents
  {
    n / agents + if a < n % agents then 1 else 0
  }

  lemma {:induction false} TurnsNext(n: nat, a: nat, agents: nat)
    requires a < agents
    ensures Turns(n + 1, a, agents) == Turns(n, a, agents) + if n % agents == a then 1 else 0
  {
    var q, r := n / agents, n % agents;
    assert n == q * agents + r;
    if r + 1 < agents {
      DivModUnique(n + 1, agents, q, r + 1);
    } else {
      assert n + 1 == (q + 1) * agents;
      DivModUnique(n + 1, agents, q + 1, 0);
    }
  }

  lemma {:induction false} DivModUnique(n: nat, d: nat, q: nat, r: nat)
    requires r < d && n == q * d + r
    ensures n / d == q && n % d == r
  {
    var q', r' := n / d, n % d;
    assert n == q' * d + r';
    assert (q - q') * d == r' - r;
    if q > q' {
      Monotone(d, 1, q - q');
    } else if q < q' {
      Monotone(d, 1, q' - q);
    }
  }

  lemma {:induction false} LoadIsTurns(items: seq<WorkItem>, agents: seq<Uuid>, fallback: Uuid, a: nat)
    requires a < |agents| && forall i, j :: 0 <= i < j < |agents| ==> agents[i] != agents[j]
    ensures Load(AssignItems(items, agents, fallback), agents[a]) == Turns(|items|, a, |agents|)
  {
    if items == [] {
      DivModUnique(0, |agents|, 0, 0);
    } else {
      var front, n := items[..|items| - 1], |items| - 1;
      assert AssignItems(items, agents, fallback)[..n] == AssignItems(front, agents, fallback);
      LoadIsTurns(front, agents, fallback, a);
      TurnsNext(n, a, |agents|);
      assert (agents[n % |agents|] == agents[a]) <==> n % |agents| == a;
    }
  }

  /** Any two of the agents get the same number of items, up to one; earlier agents never get fewer. */
  lemma {:induction false} DispatchIsBalanced(items: seq<WorkItem>, agents: seq<Uuid>, fallback: Uuid, a: nat, b: nat)
    requires a <= b < |agents| && forall i, j :: 0 <= i < j < |agents| ==> agents[i] != agents[j]
    ensures var dealt := AssignItems(items, agents, fallback);
            Load(dealt, agents[b]) <= Load(dealt, agents[a]) <= Load(dealt, agents[b]) + 1
  {
    LoadIsTurns(items, agents, fallback, a);
    LoadIsTurns(items, agents, fallback, b);
  }
}
