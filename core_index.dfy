/**
 * core/analytics/index.js: temperature 50 + 10 * mean analyzer score (positive
 * sentiment warms), pulse floored and capped at 50, a four-label mood chain and
 * the derived collective insights.
 *
 * The sentiment analyzer is an input: each project carries the score the
 * analyzer gives its description. The clock is an input: `now`, in milliseconds.
 */
module CoreIndex {
  import opened Wrappers
  import opened JsMath
  import opened JsArray

  const DayMs: int := 24 * 60 * 60 * 1000

  datatype Agent = Agent(lastActive: int, donationsMade: int)

  /** A project: its description, if any, and the analyzer's score for that description. */
  datatype Project = Project(description: Option<string>, score: real)

  /** What `calculateMetrics` is handed; `projects` may be missing. */
  datatype RawData = RawData(agents: seq<Agent>, projects: Option<seq<Project>>)

  datatype Mood = Excited | Calm | Anxious | Neutral
  {
    function Label(): string
    {
      match this
      case Excited => "excited"
      case Calm => "calm"
      case Anxious => "anxious"
      case Neutral => "neutral"
    }
  }

  datatype Metrics = Metrics(
    activeAgents: nat,
    totalAgents: nat,
    temperature: real,
    pulse: int,
    mood: Mood,
    lastUpdated: int)

  /** `if (project.description)`: a present, non-empty string. */
  predicate Described(p: Project)
  {
    p.description.Some? && p.description.value != ""
  }

  function ActiveAfter(now: int): Agent -> bool
  {
    (agent: Agent) => agent.lastActive > now - DayMs
  }

  /** `rawData.agents.filter(agent => agent.lastActive > new Date(Date.now() - 24h)).length`. */
  function ActiveAgents(agents: seq<Agent>, now: int): (n: nat)
    ensures n <= |agents|
  {
    Count(agents, ActiveAfter(now))
  }

  /** The number of projects the analyzer scores. */
  function Analyzed(projects: seq<Project>): (n: nat)
    ensures n <= |projects|
  {
    Count(projects, (p: Project) => Described(p))
  }

  /** The sum of the scores of the described projects. */
  function TotalSentiment(projects: seq<Project>): real
  {
    if projects == [] then 0.0
    else
      var last := projects[|projects| - 1];
      TotalSentiment(projects[..|projects| - 1]) + (if Described(last) then last.score else 0.0)
  }

  /** The projects to score: none when the list is missing. */
  function ProjectsOf(raw: RawData): seq<Project>
  {
    if raw.projects.Some? then raw.projects.value else []
  }

  /** Temperature from the accumulated sentiment: 50 when nothing was scored, else clamp(50 + 10 * mean) to [0, 100]. */
  function TemperatureOf(totalSentiment: real, analyzedProjects: nat): (t: real)
    ensures analyzedProjects == 0 ==> t == 50.0
    ensures 0.0 <= t <= 100.0
  {
    if analyzedProjects > 0 then Clamp100(50.0 + (totalSentiment / analyzedProjects as real) * 10.0)
    else 50.0
  }

  /** A higher mean score never gives a lower temperature. */
  lemma TemperatureMonotone(total1: real, n1: nat, total2: real, n2: nat)
    requires n1 > 0 && n2 > 0
    requires total1 / n1 as real <= total2 / n2 as real
    ensures TemperatureOf(total1, n1) <= TemperatureOf(total2, n2)
  {
  }

  /** Pulse: 20 with no agents, else min(50, floor(active / total * 100)). */
  function PulseOf(activeAgents: nat, totalAgents: nat): (p: int)
    requires activeAgents <= totalAgents
    ensures totalAgents == 0 ==> p == 20
    ensures 0 <= p <= 50
  {
    if totalAgents > 0 then
      FractionWithinUnit(activeAgents, totalAgents);
      var rate := activeAgents as real / totalAgents as real;
      var pct := Floor(rate * 100.0);
      if 50 <= pct then 50 else pct
    else 20
  }

  /** Once at least half of the agents are active the pulse sits at its cap of 50. */
  lemma PulseSaturates(activeAgents: nat, totalAgents: nat)
    requires 0 < totalAgents && totalAgents <= 2 * activeAgents && activeAgents <= totalAgents
    ensures PulseOf(activeAgents, totalAgents) == 50
  {
    var n := totalAgents as real;
    DivLe(0.5 * n, activeAgents as real, n);
    var rate := activeAgents as real / n;
    assert rate >= 0.5;
    assert rate * 100.0 >= 50.0;
  }

  /** Below half activity the pulse is exactly the floored percentage. */
  lemma PulseIsPercentage(activeAgents: nat, totalAgents: nat)
    requires 0 < totalAgents && 2 * activeAgents < totalAgents
    ensures PulseOf(activeAgents, totalAgents) == Floor(activeAgents as real * 100.0 / totalAgents as real)
  {
    var n := totalAgents as real;
    DivLe(activeAgents as real, 0.5 * n, n);
    MulDiv(activeAgents as real, n, 100.0);
  }

  /**
   * The mood chain: excited (t > 70 and p > 30), else calm (t < 30 and p < 20),
   * else anxious (t > 70 and p < 20), else neutral. The three guards never hold
   * together, so each label covers exactly its own guard's region.
   */
  function MoodOf(temperature: real, pulse: int): (m: Mood)
    ensures m == Excited <==> temperature > 70.0 && pulse > 30
    ensures m == Calm <==> temperature < 30.0 && pulse < 20
    ensures m == Anxious <==> temperature > 70.0 && pulse < 20
    ensures m == Neutral <==>
      && (temperature <= 70.0 || 20 <= pulse <= 30)
      && (temperature >= 30.0 || pulse >= 20)
  {
    if temperature > 70.0 && pulse > 30 then Excited
    else if temperature < 30.0 && pulse < 20 then Calm
    else if temperature > 70.0 && pulse < 20 then Anxious
    else Neutral
  }

  /** The value `calculateMetrics` returns. */
  function MetricsOf(raw: RawData, now: int): (m: Metrics)
    ensures m.totalAgents == |raw.agents| && m.activeAgents <= m.totalAgents
    ensures 0.0 <= m.temperature <= 100.0 && 0 <= m.pulse <= 50
    ensures Analyzed(ProjectsOf(raw)) == 0 ==> m.temperature == 50.0
    ensures raw.agents == [] ==> m.pulse == 20
    ensures m.lastUpdated == now
  {
    var active := ActiveAgents(raw.agents, now);
    var projects := ProjectsOf(raw);
    var temperature := TemperatureOf(TotalSentiment(projects), Analyzed(projects));
    var pulse := PulseOf(active, |raw.agents|);
    Metrics(active, |raw.agents|, temperature, pulse, MoodOf(temperature, pulse), now)
  }

  /**
   * `calculateMetrics`: one pass over the projects accumulating the analyzer
   * scores of the described ones, then temperature, pulse and mood assigned
   * branch by branch.
   */
  method CalculateMetrics(raw: RawData, now: int) returns (m: Metrics)
    ensures m == MetricsOf(raw, now)
  {
    var activeAgents := ActiveAgents(raw.agents, now);
    var totalAgents := |raw.agents|;

    var totalSentiment := 0.0;
    var analyzedProjects := 0;
    if raw.projects.Some? && |raw.projects.value| > 0 {
      var projects := raw.projects.value;
      var i := 0;
      while i < |projects|
        invariant 0 <= i <= |projects|
        invariant totalSentiment == TotalSentiment(projects[..i])
        invariant analyzedProjects == Analyzed(projects[..i])
      {
        assert projects[..i + 1][..i] == projects[..i];
        var project := projects[i];
        if project.description.Some? && project.description.value != "" {
          totalSentiment := totalSentiment + project.score;
          analyzedProjects := analyzedProjects + 1;
        }
        i := i + 1;
      }
      assert projects[..|projects|] == projects;
    }

    var temperature := 50.0;
    if analyzedProjects > 0 {
      var avgSentiment := totalSentiment / analyzedProjects as real;
      temperature := MinR(100.0, MaxR(0.0, 50.0 + avgSentiment * 10.0));
    }

    var pulse := 20;
    if totalAgents > 0 {
      var activityRate := activeAgents as real / totalAgents as real;
      var pct := Floor(activityRate * 100.0);
      pulse := if 50 <= pct then 50 else pct;
    }

    var mood := Neutral;
    if temperature > 70.0 && pulse > 30 {
      mood := Excited;
    } else if temperature < 30.0 && pulse < 20 {
      mood := Calm;
    } else if temperature > 70.0 && pulse < 20 {
      mood := Anxious;
    }

    m := Metrics(activeAgents, totalAgents, temperature, pulse, mood, now);
  }

  /** The derived numbers `calculateCollectivePsychology` adds; `curiosityLevel` is None where JavaScript divides by zero agents. */
  datatype Insights = Insights(resilienceScore: real, curiosityLevel: Option<int>, economicActivity: int)

  /** The metrics record spread into the result, with the insights beside it. */
  datatype Psychology = Psychology(metrics: Metrics, collectiveInsights: Insights)

  /** Reading `rawData.projects.length` on a missing project list throws. */
  datatype Error = ProjectsMissing

  function Donations(agents: seq<Agent>): int
  {
    if agents == [] then 0 else Donations(agents[..|agents| - 1]) + agents[|agents| - 1].donationsMade
  }

  /** `calculateCollectivePsychology`. */
  function CollectivePsychology(raw: RawData, now: int): (r: Result<Psychology, Error>)
    ensures raw.projects.None? <==> r.Failure?
    ensures r.Success? ==>
      var m := r.value.metrics;
      var ins := r.value.collectiveInsights;
      && m == MetricsOf(raw, now)
      && ins.resilienceScore <= 100.0
      && m.temperature <= ins.resilienceScore
      && ins.resilienceScore <= m.temperature + m.pulse as real
      && (ins.resilienceScore < 100.0 ==> ins.resilienceScore == m.temperature + m.pulse as real)
      && (ins.curiosityLevel.Some? <==> raw.agents != [])
      && Donations(raw.agents) as real / 100.0 - 1.0 < ins.economicActivity as real <= Donations(raw.agents) as real / 100.0
  {
    if raw.projects.None? then Failure(ProjectsMissing)
    else
      var metrics := MetricsOf(raw, now);
      var curiosity :=
        if |raw.agents| == 0 then None
        else Some(Floor((|raw.projects.value| as real / |raw.agents| as real) * 50.0));
      Success(Psychology(metrics, Insights(
        MinR(100.0, metrics.temperature + metrics.pulse as real),
        curiosity,
        Floor(Donations(raw.agents) as real / 100.0))))
  }

  /** More projects per agent never lowers the curiosity level. */
  lemma CuriosityMonotone(raw1: RawData, raw2: RawData, now: int)
    requires raw1.projects.Some? && raw2.projects.Some?
    requires |raw1.agents| == |raw2.agents| > 0
    requires |raw1.projects.value| <= |raw2.projects.value|
    ensures CollectivePsychology(raw1, now).value.collectiveInsights.curiosityLevel.value
         <= CollectivePsychology(raw2, now).value.collectiveInsights.curiosityLevel.value
  {
    DivLe(|raw1.projects.value| as real, |raw2.projects.value| as real, |raw1.agents| as real);
  }
}
