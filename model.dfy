/** The weather model (scripts/_/data-types.ts): the states, their durations, their
    ambience profiles and their transition tables. A transition table is an
    insertion-ordered map in the source; here it is a sequence of edges, in that order. */
module Model {
  import opened Wrappers
  import opened Config

  /** A `[min, max)` range of milliseconds. */
  datatype Delay = Delay(min: int, max: int)
  datatype Ambience = Ambience(delay: Delay, describes: seq<string>)
  /** `weight` is a u32 in the source. */
  datatype Transition = Transition(weight: nat, describes: seq<string>)
  datatype Edge = Edge(target: string, transition: Transition)
  datatype WeatherState = WeatherState(duration: Delay, ambience: Ambience, transitions: seq<Edge>)
  type WeatherModel = map<string, WeatherState>

  /** Values of the source's u32 weight sums are below this bound. */
  const U32Limit: nat := 0x1_0000_0000

  /** The weight default of a transition whose weight is not given. */
  const DefaultWeight: nat := 100

  /** `transitions.has(k)`. */
  predicate HasTarget(edges: seq<Edge>, k: string) {
    exists i :: 0 <= i < |edges| && edges[i].target == k
  }

  /** `transitions.get(k)`: the first edge to `k`, which is the only one when targets are distinct. */
  function Find(edges: seq<Edge>, k: string): (r: Option<Transition>)
    ensures r.Some? <==> HasTarget(edges, k)
    ensures r.Some? ==> exists i :: 0 <= i < |edges| && edges[i] == Edge(k, r.value)
  {
    if edges == [] then None
    else if edges[0].target == k then Some(edges[0].transition)
    else
      var r := Find(edges[1..], k);
      assert r.Some? ==> exists i :: 0 <= i < |edges[1..]| && edges[1..][i] == Edge(k, r.value);
      assert HasTarget(edges[1..], k) ==> HasTarget(edges, k) by {
        if HasTarget(edges[1..], k) {
          var i :| 0 <= i < |edges[1..]| && edges[1..][i].target == k;
          assert edges[i + 1].target == k;
        }
      }
      assert HasTarget(edges, k) ==> HasTarget(edges[1..], k) by {
        if HasTarget(edges, k) {
          var i :| 0 <= i < |edges| && edges[i].target == k;
          assert i > 0 && edges[1..][i - 1].target == k;
        }
      }
      r
  }

  /** A Map's keys are distinct. */
  predicate DistinctTargets(edges: seq<Edge>) {
    forall i, j :: 0 <= i < j < |edges| ==> edges[i].target != edges[j].target
  }

  /** The weight of the first `n` edges. */
  function Prefix(edges: seq<Edge>, n: nat): nat
    requires n <= |edges|
  {
    if n == 0 then 0 else Prefix(edges, n - 1) + edges[n - 1].transition.weight
  }

  /** The running weight sum through edge `j`. */
  function Cumulative(edges: seq<Edge>, j: nat): nat
    requires j < |edges|
  {
    Prefix(edges, j + 1)
  }

  function TotalWeight(edges: seq<Edge>): nat {
    Prefix(edges, |edges|)
  }

  /** What the engines need of a model: the default state exists (the source would abort on
      looking it up otherwise) and no transition table's total weight overflows a u32. */
  predicate Configured(m: WeatherModel) {
    && DefaultWeatherKeyword in m
    && forall k :: k in m ==> TotalWeight(m[k].transitions) < U32Limit
  }
}
