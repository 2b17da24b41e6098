/**
 * The agent status panel of the dashboard backend (backend/ui/status_api.py):
 * Prometheus samples are folded into a name -> value map, and each agent's
 * heartbeat timestamp is turned into a traffic-light colour by its age.
 * The clock is a parameter `now`; the HTTP fetch and the text parser are
 * replaced by the families they yield.
 */
module AgentStatus {
  import opened Wrappers

  datatype Colour = Green | Yellow | Red

  /** The five agents whose heartbeats the panel shows, in the order it checks them. */
  const Agents: seq<string> := ["warden", "tsm_brain", "ah_runner", "bank_runner", "ml_worker"]

  /** The Prometheus metric that carries an agent's last heartbeat time. */
  function HeartbeatMetric(agent: string): string
  {
    "goblin_agent_heartbeat_" + agent
  }

  /** Age thresholds, in seconds, of the colour rule. */
  const FreshAge: real := 30.0
  const StaleAge: real := 60.0

  /** The colour of one agent: red with no heartbeat, otherwise by the heartbeat's age. */
  function HeartbeatColour(ts: Option<real>, now: real): Colour
  {
    match ts
    case None => Red
    case Some(t) =>
      if now - t < FreshAge then Green
      else if now - t < StaleAge then Yellow
      else Red
  }

  /** How bad a colour is: green 0, yellow 1, red 2. */
  function Severity(c: Colour): nat
  {
    match c
    case Green => 0
    case Yellow => 1
    case Red => 2
  }

  /** The colour rule, case by case; in particular an older heartbeat is never shown better. */
  lemma HeartbeatColourRule(ts: Option<real>, now: real)
    ensures ts.None? ==> HeartbeatColour(ts, now) == Red
    ensures ts.Some? ==> (HeartbeatColour(ts, now) == Green <==> now - ts.value < 30.0)
    ensures ts.Some? ==> (HeartbeatColour(ts, now) == Yellow <==> 30.0 <= now - ts.value < 60.0)
    ensures ts.Some? ==> (HeartbeatColour(ts, now) == Red <==> 60.0 <= now - ts.value)
  {
  }

  lemma OlderHeartbeatNeverBetter(older: real, newer: real, now: real)
    requires older <= newer
    ensures Severity(HeartbeatColour(Some(newer), now)) <= Severity(HeartbeatColour(Some(older), now))
  {
  }

  /**
   * `ui_status`'s loop over the agents: one entry per agent, holding the
   * colour of that agent's heartbeat metric (absent metric: red).
   */
  method AgentColours(prom: map<string, real>, now: real) returns (status: map<string, Colour>)
    ensures status.Keys == set a | a in Agents
    ensures forall a | a in Agents :: status[a] == HeartbeatColour(Get(prom, HeartbeatMetric(a)), now)
  {
    status := map[];
    for i := 0 to |Agents|
      invariant status.Keys == set a | a in Agents[..i]
      invariant forall a | a in Agents[..i] :: status[a] == HeartbeatColour(Get(prom, HeartbeatMetric(a)), now)
    {
      var agent := Agents[i];
      var ts := Get(prom, HeartbeatMetric(agent));
      if ts.None? {
        status := status[agent := Red];
      } else {
        var diff := now - ts.value;
        if diff < FreshAge {
          status := status[agent := Green];
        } else if diff < StaleAge {
          status := status[agent := Yellow];
        } else {
          status := status[agent := Red];
        }
      }
      assert Agents[..i + 1] == Agents[..i] + [agent];
    }
    assert Agents[..|Agents|] == Agents;
  }

  /** The exception `time.time()` raises when `time` was never imported. */
  const NameErrorText: string := "NameError: name 'time' is not defined"

  /**
   * `ui_status`'s loop as written, over the agents still to visit: an agent
   * with no heartbeat is set red; the first agent with one reaches
   * `time.time()`, and since `time` is never imported the request fails
   * there with NameError.
   */
  function ColoursAsWritten(agents: seq<string>, prom: map<string, real>, status: map<string, Colour>)
    : Result<map<string, Colour>, string>
    decreases |agents|
  {
    if agents == [] then Success(status)
    else match Get(prom, HeartbeatMetric(agents[0]))
      case None => ColoursAsWritten(agents[1..], prom, status[agents[0] := Red])
      case Some(_) => Failure(NameErrorText)
  }

  /** The whole loop as written, from an empty status map. */
  function AgentColoursAsWritten(prom: map<string, real>): Result<map<string, Colour>, string>
  {
    ColoursAsWritten(Agents, prom, map[])
  }

  /**
   * What the walk as written does with the agents still to visit: it fails
   * exactly when one of them has a heartbeat; otherwise it adds each of them
   * as red and keeps what was already there.
   */
  lemma {:induction false} ColoursAsWrittenWalk(agents: seq<string>, prom: map<string, real>, status: map<string, Colour>)
    ensures var r := ColoursAsWritten(agents, prom, status);
            && (r.Failure? <==> exists a | a in agents :: HeartbeatMetric(a) in prom)
            && (r.Failure? ==> r.error == NameErrorText)
            && (r.Success? ==> r.value.Keys == status.Keys + (set a | a in agents))
            && (r.Success? ==> forall a | a in agents :: r.value[a] == Red)
            && (r.Success? ==> forall k | k in status && k !in agents :: r.value[k] == status[k])
    decreases |agents|
  {
    if agents != [] {
      var rest := agents[1..];
      assert forall a :: a in agents <==> a == agents[0] || a in rest;
      ColoursAsWrittenWalk(rest, prom, status[agents[0] := Red]);
    }
  }

  /** As written, the panel can never show green or yellow: it either fails or shows all five agents red. */
  lemma AsWrittenNeverGreen(prom: map<string, real>)
    ensures AgentColoursAsWritten(prom).Failure? <==> exists a | a in Agents :: HeartbeatMetric(a) in prom
    ensures AgentColoursAsWritten(prom).Failure? ==> AgentColoursAsWritten(prom).error == NameErrorText
    ensures AgentColoursAsWritten(prom).Success? ==>
              && AgentColoursAsWritten(prom).value.Keys == (set a | a in Agents)
              && forall a | a in AgentColoursAsWritten(prom).value :: AgentColoursAsWritten(prom).value[a] == Red
  {
    ColoursAsWrittenWalk(Agents, prom, map[]);
  }

  /** The input that shows it: a warden heartbeat one second old fails as written and is green once corrected. */
  lemma AsWrittenFailsOnFreshHeartbeat()
    ensures AgentColoursAsWritten(map[HeartbeatMetric("warden") := 99.0]).Failure?
    ensures HeartbeatColour(Get(map[HeartbeatMetric("warden") := 99.0], HeartbeatMetric("warden")), 100.0) == Green
  {
    assert "warden" in Agents;
  }

  datatype Sample = Sample(name: string, value: real)

  /**
   * What `get_prom_metrics` gets to fold: nothing when the fetch fails, or
   * the metric families the parser yielded (up to a parse error, if any).
   */
  datatype Scrape = FetchFailed | Scraped(families: seq<seq<Sample>>)

  /** All samples of the families, in order. */
  function Flatten(families: seq<seq<Sample>>): (r: seq<Sample>)
    ensures families == [] ==> r == []
  {
    if families == [] then [] else Flatten(families[..|families| - 1]) + families[|families| - 1]
  }

  /** The value of the last sample named `name`, searching from the end. */
  function LastValue(samples: seq<Sample>, name: string): (r: Option<real>)
    ensures r.None? <==> forall k :: 0 <= k < |samples| ==> samples[k].name != name
    ensures r.Some? ==> exists k :: 0 <= k < |samples| && samples[k] == Sample(name, r.value) &&
                                    forall j :: k < j < |samples| ==> samples[j].name != name
  {
    if samples == [] then None
    else if samples[|samples| - 1].name == name then Some(samples[|samples| - 1].value)
    else LastValue(samples[..|samples| - 1], name)
  }

  /** The dictionary agrees with the samples: its keys are their names, and later samples win. */
  ghost predicate FoldOf(metrics: map<string, real>, samples: seq<Sample>)
  {
    && (forall n :: n in metrics <==> LastValue(samples, n).Some?)
    && (forall n | n in metrics :: LastValue(samples, n) == Some(metrics[n]))
  }

  /** The dictionary built by storing each sample under its name, in order. */
  function Fold(samples: seq<Sample>): map<string, real>
  {
    if samples == [] then map[]
    else var s := samples[|samples| - 1]; Fold(samples[..|samples| - 1])[s.name := s.value]
  }

  /** Folding the samples in order leaves, for each name, the value of its last sample. */
  lemma {:induction false} FoldKeepsLastValue(samples: seq<Sample>)
    ensures FoldOf(Fold(samples), samples)
    decreases |samples|
  {
    if samples != [] {
      FoldKeepsLastValue(samples[..|samples| - 1]);
    }
  }

  /**
   * `get_prom_metrics`: every sample of every family is stored under its
   * name, a later sample overwriting an earlier one; a failed fetch gives
   * the empty dictionary.
   */
  method GetPromMetrics(scrape: Scrape) returns (metrics: map<string, real>)
    ensures scrape.FetchFailed? ==> metrics == map[]
    ensures scrape.Scraped? ==> FoldOf(metrics, Flatten(scrape.families))
  {
    metrics := map[];
    if scrape.FetchFailed? {
      return;
    }
    var families := scrape.families;
    for i := 0 to |families|
      invariant metrics == Fold(Flatten(families[..i]))
    {
      var family := families[i];
      ghost var before := Flatten(families[..i]);
      assert before + family[..0] == before;
      for j := 0 to |family|
        invariant metrics == Fold(before + family[..j])
      {
        assert (before + family[..j + 1])[..|before| + j] == before + family[..j];
        metrics := metrics[family[j].name := family[j].value];
      }
      FlattenSnoc(families, i);
    }
    assert families[..|families|] == families;
    FoldKeepsLastValue(Flatten(families));
  }

  lemma FlattenSnoc(families: seq<seq<Sample>>, i: nat)
    requires i < |families|
    ensures Flatten(families[..i + 1]) == Flatten(families[..i]) + families[i][..|families[i]|]
  {
    assert families[..i + 1][..i] == families[..i];
    assert families[i][..|families[i]|] == families[i];
  }

  /** A failed fetch, or a page with no samples, yields no metrics, so every agent shows red. */
  lemma {:induction false} NoMetricsAllRed(metrics: map<string, real>, now: real, agent: string)
    requires FoldOf(metrics, [])
    ensures HeartbeatColour(Get(metrics, HeartbeatMetric(agent)), now) == Red
  {
    assert HeartbeatMetric(agent) !in metrics;
  }
}
