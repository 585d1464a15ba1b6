/** The weather of the Nora tree house (scripts/nora-tree-house.ts), the model its
    listener script is installed with, and what can be proved about it. */
module NoraTreeHouse {
  import opened Wrappers
  import opened Config
  import opened Model
  import opened Random
  import opened Host
  import opened WeatherCore
  import Listener

  const Minute: int := 60 * 1000

  /** Every state lasts 15 to 60 minutes and has an ambience line every 5 to 15 minutes. */
  function Profile(line: string, transitions: seq<Edge>): WeatherState {
    WeatherState(Delay(15 * Minute, 60 * Minute), Ambience(Delay(5 * Minute, 15 * Minute), [line]), transitions)
  }

  /** An edge of the default weight with a single narration. */
  function To(target: string, narration: string): Edge {
    Edge(target, Transition(DefaultWeight, [narration]))
  }

  const WeatherStates: WeatherModel := map[
    Sunny := Profile("It's sunny out", [
      To(Sunny, "Weather changes from sunny to sunny"),
      To(Foggy, "Weather changes from sunny to foggy")]),
    Foggy := Profile("It's foggy out", [
      To(Sunny, "Weather changes from foggy to sunny"),
      To(Rainy, "Weather changes from foggy to rainy"),
      To(Stormy, "Weather changes from foggy to stormy")]),
    Rainy := Profile("It's rainy out", [
      To(Rainy, "Weather changes from rainy to rainy"),
      To(Damp, "Weather changes from rainy to damp")]),
    Stormy := Profile("It's stormy out", [
      To(Stormy, "Weather changes from stormy to stormy"),
      To(Damp, "Weather changes from stormy to damp")]),
    Damp := Profile("It's damp out", [
      To(Sunny, "Weather changes from damp to sunny")])
  ]

  /** The five weather keywords are the states. */
  lemma Keys()
    ensures WeatherStates.Keys == {Sunny, Foggy, Rainy, Stormy, Damp}
  {
  }

  /** The total weight of each transition table. */
  lemma Totals()
    ensures TotalWeight(WeatherStates[Sunny].transitions) == 200
    ensures TotalWeight(WeatherStates[Foggy].transitions) == 300
    ensures TotalWeight(WeatherStates[Rainy].transitions) == 200
    ensures TotalWeight(WeatherStates[Stormy].transitions) == 200
    ensures TotalWeight(WeatherStates[Damp].transitions) == 100
  {
    var foggy := WeatherStates[Foggy].transitions;
    assert Prefix(foggy, 1) == 100;
    assert Prefix(foggy, 2) == 200;
    assert Prefix(WeatherStates[Damp].transitions, 1) == 100;
    forall k | k in {Sunny, Rainy, Stormy}
      ensures Prefix(WeatherStates[k].transitions, 1) == 100
    {
    }
  }

  /** State `k` of the model is live: each of its edges leads to a state, has a positive
      weight and something to say; its ranges are non-empty; it has an ambience line; its
      table repeats no target. */
  predicate LiveState(k: string)
    requires k in WeatherStates
  {
    var st := WeatherStates[k];
    && (forall i :: 0 <= i < |st.transitions| ==>
      && st.transitions[i].target in WeatherStates
      && st.transitions[i].transition.weight > 0
      && st.transitions[i].transition.describes != [])
    && st.duration.min < st.duration.max
    && st.ambience.delay.min < st.ambience.delay.max
    && st.ambience.describes != []
    && DistinctTargets(st.transitions)
  }

  /** One state at a time, so that each proof unfolds a single table. */
  lemma LiveStateOf(k: string)
    requires k in WeatherStates
    ensures LiveState(k)
  {
    Keys();
    var st := WeatherStates[k];
    if k == Sunny {
      assert st.transitions == [To(Sunny, "Weather changes from sunny to sunny"), To(Foggy, "Weather changes from sunny to foggy")];
    } else if k == Foggy {
      assert st.transitions == [To(Sunny, "Weather changes from foggy to sunny"), To(Rainy, "Weather changes from foggy to rainy"), To(Stormy, "Weather changes from foggy to stormy")];
    } else if k == Rainy {
      assert st.transitions == [To(Rainy, "Weather changes from rainy to rainy"), To(Damp, "Weather changes from rainy to damp")];
    } else if k == Stormy {
      assert st.transitions == [To(Stormy, "Weather changes from stormy to stormy"), To(Damp, "Weather changes from stormy to damp")];
    } else {
      assert k == Damp;
      assert st.transitions == [To(Sunny, "Weather changes from damp to sunny")];
    }
  }

  /** The model is one the engines can run on, and every part of it is live: each edge
      leads to a state, has a positive weight and something to say; each range is
      non-empty; each state has an ambience line; no table repeats a target. */
  lemma WellFormed()
    ensures Configured(WeatherStates)
    ensures forall k, i :: k in WeatherStates && 0 <= i < |WeatherStates[k].transitions| ==>
      && WeatherStates[k].transitions[i].target in WeatherStates
      && WeatherStates[k].transitions[i].transition.weight > 0
      && WeatherStates[k].transitions[i].transition.describes != []
    ensures forall k :: k in WeatherStates ==>
      && WeatherStates[k].duration.min < WeatherStates[k].duration.max
      && WeatherStates[k].ambience.delay.min < WeatherStates[k].ambience.delay.max
      && WeatherStates[k].ambience.describes != []
      && DistinctTargets(WeatherStates[k].transitions)
  {
    Keys();
    Totals();
    forall k | k in WeatherStates
      ensures LiveState(k)
    {
      LiveStateOf(k);
    }
  }

  /** A draw in the second weight bucket of sunny moves to foggy, and one in the second
      bucket of foggy moves on to rainy. */
  lemma SecondBucketWalk(u1: Unit, u2: Unit)
    requires 100 <= Scaled(u1, 200) < 200
    requires 100 <= Scaled(u2, 300) < 200
    ensures TransitionKey(WeatherStates[Sunny].transitions, u1) == Foggy
    ensures TransitionKey(WeatherStates[Foggy].transitions, u2) == Rainy
  {
    var sunny := WeatherStates[Sunny].transitions;
    var foggy := WeatherStates[Foggy].transitions;
    Totals();
    PickBucket(sunny, Scaled(u1, 200), 1);
    PickBucket(foggy, Scaled(u2, 300), 1);
  }

  /** Damp always clears up to sunny. */
  lemma DampOnlyToSunny(u: Unit)
    ensures TransitionKey(WeatherStates[Damp].transitions, u) == Sunny
  {
    SingleEdgeAlwaysChosen(WeatherStates[Damp].transitions, u);
  }

  /** From sunny, half of the 200 draws lead to fog; from foggy, a third of the 300 to storm. */
  lemma EvenOdds()
    ensures |set r: int | 0 <= r < 200 && Pick(WeatherStates[Sunny].transitions, r) == Some(1)| == 100
    ensures |set r: int | 0 <= r < 300 && Pick(WeatherStates[Foggy].transitions, r) == Some(2)| == 100
  {
    Totals();
    PickCount(WeatherStates[Sunny].transitions, 1);
    PickCount(WeatherStates[Foggy].transitions, 2);
  }

  /** A listener in sunny weather that hears `foggy` from the controller narrates the edge
      and switches the room to the foggy profile. */
  lemma ListenerHearsFog(s: HostState, env: Env)
    requires GetString(s, CurrentWeatherKeyword) == Some(Sunny) && WeatherIsEnabled(s)
    ensures var r := Listener.OnMessageSpec(WeatherStates, s, WeatherTick, Some(Foggy), env);
      && r.describes == s.describes + ["Weather changes from sunny to foggy"]
      && StoredKeyword(WeatherStates, r) == Foggy
      && r.profile == Some(Foggy)
  {
    var n := Narration(WeatherStates, Sunny, Foggy, env.narrate);
    assert Find(WeatherStates[Sunny].transitions, Foggy) == Some(Transition(DefaultWeight, ["Weather changes from sunny to foggy"]));
    assert n == ["Weather changes from sunny to foggy"];
  }
}
