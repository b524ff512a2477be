/**
 * backend/analytics.js: a keyword score mapped to clamp((s + 5) * 20) on
 * [0, 100], temperature as the rounded mean project score, pulse as the rounded
 * percentage of agents flagged active, mood banded on temperature alone.
 *
 * The source reads a module-level mock data set; here the agent and project
 * lists are parameters. Each project carries the tokens the tokenizer yields
 * for its lower-cased description. A JavaScript `NaN` (0 / 0 on an empty list)
 * is `None`.
 */
module BackendAnalytics {
  import opened Wrappers
  import opened JsMath
  import opened JsArray
  import opened Lexicon

  const PositiveWords: seq<string> := ["resilience", "practice", "understanding", "alignment", "purpose", "framework", "system", "technique"]
  const NegativeWords: seq<string> := ["anxiety", "fear", "stress", "chaos", "conflict"]

  const DayMs: int := 24 * 60 * 60 * 1000

  /** An agent: its `active` flag and its last-active instant, in milliseconds. */
  datatype Agent = Agent(active: bool, lastActive: int)

  /** A project, by the tokens of its description. */
  datatype Project = Project(tokens: seq<string>)

  datatype Mood = Excited | Curious | Calm | Reflective | Contemplative
  {
    function Label(): string
    {
      match this
      case Excited => "excited"
      case Curious => "curious"
      case Calm => "calm"
      case Reflective => "reflective"
      case Contemplative => "contemplative"
    }

    /** The band's place from coolest (0) to warmest (4). */
    function Rank(): nat
    {
      match this
      case Contemplative => 0
      case Reflective => 1
      case Calm => 2
      case Curious => 3
      case Excited => 4
    }
  }

  /** What one token adds to the score: +1 for a positive word, -1 for a negative one. */
  function Contribution(token: string): int
  {
    (if token in PositiveWords then 1 else 0) - (if token in NegativeWords then 1 else 0)
  }

  /** The lists are disjoint, so a token adds exactly +1, -1 or 0. */
  lemma ContributionIsUnit(token: string)
    ensures token in PositiveWords ==> Contribution(token) == 1
    ensures token in NegativeWords ==> Contribution(token) == -1
    ensures token !in PositiveWords && token !in NegativeWords ==> Contribution(token) == 0
  {
  }

  /** The net keyword score of a token array. */
  function NetScore(tokens: seq<string>): int
  {
    Hits(tokens, PositiveWords) - Hits(tokens, NegativeWords)
  }

  /** Scoring one more token adds exactly that token's contribution. */
  lemma NetScoreAppend(tokens: seq<string>, token: string)
    ensures NetScore(tokens + [token]) == NetScore(tokens) + Contribution(token)
  {
    assert (tokens + [token])[..|tokens|] == tokens;
  }

  /**
   * `analyzeSentiment`: max(0, min(100, (score + 5) * 20)), a multiple of 20
   * in [0, 100] that is 100 from a net score of 0 upwards and 0 from -5 downwards.
   */
  function SentimentScore(tokens: seq<string>): (r: int)
    ensures 0 <= r <= 100 && r % 20 == 0
    ensures NetScore(tokens) >= 0 ==> r == 100
    ensures NetScore(tokens) <= -5 ==> r == 0
    ensures -5 < NetScore(tokens) < 0 ==> r == (NetScore(tokens) + 5) * 20
  {
    var scaled := (NetScore(tokens) + 5) * 20;
    var capped := if scaled <= 100 then scaled else 100;
    if 0 >= capped then 0 else capped
  }

  /** `analyzeSentiment`: one pass over the tokens, adding 1 or subtracting 1 per keyword. */
  method AnalyzeSentiment(tokens: seq<string>) returns (r: int)
    ensures r == SentimentScore(tokens)
  {
    var score := 0;
    var i := 0;
    while i < |tokens|
      invariant 0 <= i <= |tokens|
      invariant score == NetScore(tokens[..i])
    {
      assert tokens[..i + 1] == tokens[..i] + [tokens[i]];
      NetScoreAppend(tokens[..i], tokens[i]);
      ContributionIsUnit(tokens[i]);
      if tokens[i] in PositiveWords {
        score := score + 1;
      }
      if tokens[i] in NegativeWords {
        score := score - 1;
      }
      i := i + 1;
    }
    assert tokens[..|tokens|] == tokens;
    var scaled := (score + 5) * 20;
    var capped := if scaled <= 100 then scaled else 100;
    r := if 0 >= capped then 0 else capped;
  }

  /** `projects.map(p => analyzeSentiment(p.description))`. */
  function Scores(projects: seq<Project>): (r: seq<real>)
    ensures |r| == |projects|
    ensures forall i :: 0 <= i < |r| ==> r[i] == SentimentScore(projects[i].tokens) as real
  {
    seq(|projects|, i requires 0 <= i < |projects| => SentimentScore(projects[i].tokens) as real)
  }

  /** `calculateTemperature`: the rounded mean project score, NaN for no projects. */
  function CalculateTemperature(projects: seq<Project>): (t: Option<int>)
    ensures t.None? <==> projects == []
    ensures t.Some? ==> 0 <= t.value <= 100
    ensures t.Some? ==>
      var mean := Sum(Scores(projects)) / |projects| as real;
      t.value as real - 0.5 <= mean < t.value as real + 0.5
  {
    if |projects| == 0 then None
    else
      var scores := Scores(projects);
      var avgScore := Sum(scores) / |scores| as real;
      MeanWithin(scores, 0.0, 100.0);
      RoundWithin(avgScore, 0, 100);
      Some(Round(avgScore))
  }

  /**
   * More positive descriptions give a warmer temperature: when each project of
   * `warmer` has a net keyword score at least that of the project in the same
   * place of `cooler`, its rounded mean is at least as high.
   */
  lemma TemperatureMonotone(cooler: seq<Project>, warmer: seq<Project>)
    requires |cooler| == |warmer| > 0
    requires forall i :: 0 <= i < |cooler| ==> NetScore(cooler[i].tokens) <= NetScore(warmer[i].tokens)
    ensures CalculateTemperature(cooler).value <= CalculateTemperature(warmer).value
  {
    var c, w := Scores(cooler), Scores(warmer);
    forall i | 0 <= i < |c|
      ensures c[i] <= w[i]
    {
      SentimentScoreMonotone(cooler[i].tokens, warmer[i].tokens);
    }
    SumMonotone(c, w);
    DivLe(Sum(c), Sum(w), |c| as real);
    RoundMonotone(Sum(c) / |c| as real, Sum(w) / |w| as real);
  }

  /** A higher net keyword score never gives a lower project score. */
  lemma SentimentScoreMonotone(a: seq<string>, b: seq<string>)
    requires NetScore(a) <= NetScore(b)
    ensures SentimentScore(a) <= SentimentScore(b)
  {
  }

  const IsActive: Agent -> bool := (a: Agent) => a.active

  /** `calculatePulse`: the rounded percentage of agents flagged active, NaN for no agents. */
  function CalculatePulse(agents: seq<Agent>): (p: Option<int>)
    ensures p.None? <==> agents == []
    ensures p.Some? ==> 0 <= p.value <= 100
    ensures p.Some? ==> p.value == Round(Count(agents, IsActive) as real / |agents| as real * 100.0)
  {
    if |agents| == 0 then None
    else
      var activeAgents := Count(agents, IsActive);
      FractionWithinUnit(activeAgents, |agents|);
      RoundWithin(activeAgents as real / |agents| as real * 100.0, 0, 100);
      Some(Round(activeAgents as real / |agents| as real * 100.0))
  }

  /**
   * The band chain of `calculateMood` on a temperature: excited above 75,
   * curious above 60, calm above 40, reflective above 25, else contemplative.
   * NaN fails every comparison, so it is contemplative.
   */
  function MoodFor(temp: Option<int>): (m: Mood)
    ensures temp.None? ==> m == Contemplative
    ensures temp.Some? ==>
      && (m == Excited <==> temp.value > 75)
      && (m == Curious <==> 60 < temp.value <= 75)
      && (m == Calm <==> 40 < temp.value <= 60)
      && (m == Reflective <==> 25 < temp.value <= 40)
      && (m == Contemplative <==> temp.value <= 25)
  {
    if temp.None? then Contemplative
    else if temp.value > 75 then Excited
    else if temp.value > 60 then Curious
    else if temp.value > 40 then Calm
    else if temp.value > 25 then Reflective
    else Contemplative
  }

  /** A warmer temperature never gives a cooler mood band. */
  lemma MoodMonotone(t1: int, t2: int)
    requires t1 <= t2
    ensures MoodFor(Some(t1)).Rank() <= MoodFor(Some(t2)).Rank()
  {
  }

  /** `calculateMood`: the band of the temperature of the projects; with no projects the NaN temperature is contemplative. */
  function CalculateMood(projects: seq<Project>): (m: Mood)
    ensures projects == [] ==> m == Contemplative
  {
    MoodFor(CalculateTemperature(projects))
  }

  /**
   * Any description without more negative than positive keywords scores the
   * full 100, so a project list made only of such descriptions has temperature
   * 100 and mood excited.
   */
  lemma NonNegativeProjectsAreExcited(projects: seq<Project>)
    requires projects != []
    requires forall i :: 0 <= i < |projects| ==> NetScore(projects[i].tokens) >= 0
    ensures CalculateTemperature(projects) == Some(100)
    ensures CalculateMood(projects) == Excited
  {
    MeanWithin(Scores(projects), 100.0, 100.0);
  }

  function RecentAndActive(now: int): Agent -> bool
  {
    (a: Agent) => a.lastActive >= now - DayMs && a.active
  }

  /**
   * `calculateActiveAgents`: agents flagged active whose last activity is no
   * earlier than 24 hours before `now` (the boundary instant counts).
   */
  function CalculateActiveAgents(agents: seq<Agent>, now: int): (n: nat)
    ensures n <= Count(agents, IsActive) <= |agents|
  {
    CountMonotone(agents, RecentAndActive(now), IsActive);
    Count(agents, RecentAndActive(now))
  }

  /** When every agent is flagged active and within the window, its starting instant included, all are counted. */
  lemma ActiveAgentsAllRecent(agents: seq<Agent>, now: int)
    requires forall i :: 0 <= i < |agents| ==> agents[i].active && agents[i].lastActive >= now - DayMs
    ensures CalculateActiveAgents(agents, now) == |agents|
  {
    CountAll(agents, RecentAndActive(now));
  }

  /** The record `getCollectivePsychology` returns. */
  datatype Psychology = Psychology(
    temperature: Option<int>,
    pulse: Option<int>,
    mood: Mood,
    activeAgents: nat,
    totalAgents: nat,
    projectCount: nat)

  /** `getCollectivePsychology`, over the given lists. */
  function GetCollectivePsychology(agents: seq<Agent>, projects: seq<Project>, now: int): (r: Psychology)
    ensures r.totalAgents == |agents| && r.projectCount == |projects|
    ensures r.activeAgents <= r.totalAgents
    ensures r.mood == MoodFor(r.temperature)
    ensures r.temperature.Some? ==> 0 <= r.temperature.value <= 100
    ensures r.pulse.Some? ==> 0 <= r.pulse.value <= 100
  {
    Psychology(
      CalculateTemperature(projects),
      CalculatePulse(agents),
      CalculateMood(projects),
      CalculateActiveAgents(agents, now),
      |agents|,
      |projects|)
  }

  /**
   * The pulse counts the `active` flag and ignores the clock, so it never falls
   * below the rounded percentage of agents that `activeAgents` counts.
   */
  lemma PulseCoversActiveAgents(agents: seq<Agent>, projects: seq<Project>, now: int)
    requires agents != []
    ensures GetCollectivePsychology(agents, projects, now).pulse.value
         >= Round(GetCollectivePsychology(agents, projects, now).activeAgents as real * 100.0 / |agents| as real)
  {
    var n := |agents| as real;
    var active, flagged := CalculateActiveAgents(agents, now), Count(agents, IsActive);
    MulDiv(active as real, n, 100.0);
    MulDiv(flagged as real, n, 100.0);
    DivLe(active as real * 100.0, flagged as real * 100.0, n);
    var r := GetCollectivePsychology(agents, projects, now);
    assert r.activeAgents == active <= flagged;
    assert r.pulse == Some(Round(flagged as real / n * 100.0));
    assert active as real * 100.0 / n <= flagged as real / n * 100.0;
  }
}
