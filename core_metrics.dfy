/**
 * core/analytics/metrics.js: lexicon sentiment in [-1, 1], temperature
 * 50 - 30 * mean sentiment (positive sentiment cools), pulse on a 0-100 scale,
 * a five-label mood list and the snapshot assembler.
 *
 * The word tokenizer is an input: a text arrives with the tokens the
 * tokenizer yields for its lower-cased form. The clock is an input: `now`,
 * in milliseconds.
 */
module CoreMetrics {
  import opened Wrappers
  import opened JsMath
  import opened JsArray
  import opened Lexicon

  const PositiveWords: seq<string> := ["create", "build", "love", "joy", "happy", "exciting", "curious", "passion"]
  const NegativeWords: seq<string> := ["fail", "error", "sad", "angry", "anxious", "fear", "problem", "issue"]

  const MsPerHour: int := 1000 * 60 * 60
  const DayMs: int := 24 * 60 * 60 * 1000

  /** What `calculateSentiment` may be handed. */
  datatype Text =
    | Missing                                    // undefined or null
    | NonString                                  // a value of another type
    | Str(text: string, tokens: seq<string>)     // a string and its tokens

  lemma WordListsDisjoint()
    ensures Disjoint(PositiveWords, NegativeWords)
  {
  }

  /** The score of a token array: (positive hits - negative hits) / max(token count, 1). */
  function TokenScore(tokens: seq<string>): (s: real)
    ensures -1.0 <= s <= 1.0
  {
    var pos, neg := Hits(tokens, PositiveWords), Hits(tokens, NegativeWords);
    WordListsDisjoint();
    HitsDisjoint(tokens, PositiveWords, NegativeWords);
    RatioWithinUnit(pos - neg, if |tokens| > 1 then |tokens| else 1);
    (pos - neg) as real / (if |tokens| > 1 then |tokens| else 1) as real
  }

  /** The value `calculateSentiment` returns. */
  function Sentiment(t: Text): (s: real)
    ensures -1.0 <= s <= 1.0
    ensures !t.Str? || t.text == "" ==> s == 0.0
    ensures t.Str? && t.text != "" ==> s == TokenScore(t.tokens)
  {
    if !t.Str? || t.text == "" then 0.0 else TokenScore(t.tokens)
  }

  /** `calculateSentiment`: one pass over the tokens counting keyword hits. */
  method CalculateSentiment(t: Text) returns (s: real)
    ensures s == Sentiment(t)
    ensures -1.0 <= s <= 1.0
  {
    if !t.Str? || t.text == "" {
      return 0.0;
    }
    var tokens := t.tokens;
    var positiveCount, negativeCount := 0, 0;
    var i := 0;
    while i < |tokens|
      invariant 0 <= i <= |tokens|
      invariant positiveCount == Hits(tokens[..i], PositiveWords)
      invariant negativeCount == Hits(tokens[..i], NegativeWords)
    {
      assert tokens[..i + 1][..i] == tokens[..i];
      if tokens[i] in PositiveWords {
        positiveCount := positiveCount + 1;
      }
      if tokens[i] in NegativeWords {
        negativeCount := negativeCount + 1;
      }
      i := i + 1;
    }
    assert tokens[..|tokens|] == tokens;
    s := (positiveCount - negativeCount) as real / (if |tokens| > 1 then |tokens| else 1) as real;
  }

  /** Reordering the tokens of a text never changes its score. */
  lemma SentimentPermutation(a: seq<string>, b: seq<string>)
    requires multiset(a) == multiset(b)
    ensures TokenScore(a) == TokenScore(b)
  {
    HitsPermutation(a, b, PositiveWords);
    HitsPermutation(a, b, NegativeWords);
    assert |a| == |multiset(a)| == |multiset(b)| == |b|;
  }

  /** The six tokens of "This project explores joy and curiosity". */
  const JoyAndCuriosity: seq<string> := ["this", "project", "explores", "joy", "and", "curiosity"]

  /** Of those tokens only "joy" is a keyword: the list has "curious", and there is no stemming. */
  lemma JoyAndCuriosityHits()
    ensures Hits(JoyAndCuriosity, PositiveWords) == 1
    ensures Hits(JoyAndCuriosity, NegativeWords) == 0
  {
    var t := JoyAndCuriosity;
    assert t[3] in PositiveWords;
    assert forall k :: 0 <= k < |t| && k != 3 ==> t[k] !in PositiveWords;
    assert forall k :: 0 <= k < |t| ==> t[k] !in NegativeWords;
    assert t[..1] == t[..0] + [t[0]];
    HitsSnoc(t[..0], t[0], PositiveWords);
    HitsSnoc(t[..0], t[0], NegativeWords);
    assert t[..2] == t[..1] + [t[1]];
    HitsSnoc(t[..1], t[1], PositiveWords);
    HitsSnoc(t[..1], t[1], NegativeWords);
    assert t[..3] == t[..2] + [t[2]];
    HitsSnoc(t[..2], t[2], PositiveWords);
    HitsSnoc(t[..2], t[2], NegativeWords);
    assert t[..4] == t[..3] + [t[3]];
    HitsSnoc(t[..3], t[3], PositiveWords);
    HitsSnoc(t[..3], t[3], NegativeWords);
    assert t[..5] == t[..4] + [t[4]];
    HitsSnoc(t[..4], t[4], PositiveWords);
    HitsSnoc(t[..4], t[4], NegativeWords);
    assert t[..6] == t[..5] + [t[5]];
    HitsSnoc(t[..5], t[5], PositiveWords);
    HitsSnoc(t[..5], t[5], NegativeWords);
    assert t[..6] == t;
  }

  /** So the text scores 1/6, and a lone project described by it has temperature 45. */
  lemma JoyAndCuriosityExample()
    ensures TokenScore(JoyAndCuriosity) == 1.0 / 6.0
    ensures Temperature([1.0 / 6.0]) == 45.0
  {
    JoyAndCuriosityHits();
    assert Sum([1.0 / 6.0]) == 1.0 / 6.0 by {
      assert [1.0 / 6.0][..0] == [];
    }
  }

  function Mean(s: seq<real>): real
    requires |s| > 0
  {
    Sum(s) / |s| as real
  }

  /** `calculateTemperature`: 50 for no scores, else clamp(50 - 30 * mean) to [0, 100]. */
  function Temperature(sentiments: seq<real>): (t: real)
    ensures sentiments == [] ==> t == 50.0
    ensures 0.0 <= t <= 100.0
    ensures sentiments != [] && Mean(sentiments) <= 0.0 ==> t >= 50.0
    ensures sentiments != [] && Mean(sentiments) >= 0.0 ==> t <= 50.0
  {
    if |sentiments| == 0 then 50.0 else Clamp100(50.0 - Mean(sentiments) * 30.0)
  }

  /** A higher mean sentiment never gives a higher temperature. */
  lemma TemperatureAntitone(a: seq<real>, b: seq<real>)
    requires a != [] && b != []
    requires Mean(a) <= Mean(b)
    ensures Temperature(a) >= Temperature(b)
  {
  }

  /** Scores from the lexicon lie in [-1, 1], so their temperature is 50 - 30 * mean, within [20, 80]: the clamp never engages. */
  lemma TemperatureOfScores(sentiments: seq<real>)
    requires sentiments != []
    requires forall i :: 0 <= i < |sentiments| ==> -1.0 <= sentiments[i] <= 1.0
    ensures Temperature(sentiments) == 50.0 - Mean(sentiments) * 30.0
    ensures 20.0 <= Temperature(sentiments) <= 80.0
  {
    MeanWithin(sentiments, -1.0, 1.0);
  }

  /** The pulse test `(now - timestamp) / (1000 * 60 * 60) < 24`. */
  predicate WithinDayByHours(now: int, timestamp: int)
  {
    (now - timestamp) as real / MsPerHour as real < 24.0
  }

  /** The active-agent test `(now - lastActive) < 24 * 60 * 60 * 1000`. */
  predicate WithinDay(now: int, timestamp: int)
  {
    now - timestamp < DayMs
  }

  /** On exact arithmetic the two 24-hour tests agree. */
  lemma WindowTestsAgree(now: int, timestamp: int)
    ensures WithinDayByHours(now, timestamp) <==> WithinDay(now, timestamp)
  {
    var d := (now - timestamp) as real;
    assert d / MsPerHour as real < 24.0 <==> d < 24.0 * MsPerHour as real;
  }

  function RecentAt(now: int): int -> bool
  {
    (timestamp: int) => WithinDayByHours(now, timestamp)
  }

  /** `calculatePulse`: 20 for no activities, else the share of activities in the last 24 hours, times 100, capped at 100. */
  function Pulse(activities: seq<int>, now: int): (p: real)
    ensures activities == [] ==> p == 20.0
    ensures 0.0 <= p <= 100.0
  {
    if |activities| == 0 then 20.0
    else
      var recent := Count(activities, RecentAt(now));
      FractionWithinUnit(recent, |activities|);
      MinR(100.0, (recent as real / |activities| as real) * 100.0)
  }

  /** `calculatePulse`: one pass over the timestamps counting the recent ones. */
  method CalculatePulse(activities: seq<int>, now: int) returns (p: real)
    ensures p == Pulse(activities, now)
  {
    if |activities| == 0 {
      return 20.0;
    }
    var recentActivityCount := 0;
    var i := 0;
    while i < |activities|
      invariant 0 <= i <= |activities|
      invariant recentActivityCount == Count(activities[..i], RecentAt(now))
    {
      assert activities[..i + 1][..i] == activities[..i];
      var hoursAgo := (now - activities[i]) as real / MsPerHour as real;
      if hoursAgo < 24.0 {
        recentActivityCount := recentActivityCount + 1;
      }
      i := i + 1;
    }
    assert activities[..|activities|] == activities;
    p := MinR(100.0, (recentActivityCount as real / |activities| as real) * 100.0);
  }

  /** Every timestamp within the last 24 hours gives full pulse. */
  lemma PulseAllRecent(activities: seq<int>, now: int)
    requires activities != []
    requires forall i :: 0 <= i < |activities| ==> WithinDay(now, activities[i])
    ensures Pulse(activities, now) == 100.0
  {
    forall i | 0 <= i < |activities| ensures RecentAt(now)(activities[i]) {
      WindowTestsAgree(now, activities[i]);
    }
    CountAll(activities, RecentAt(now));
  }

  /** No timestamp within the last 24 hours gives pulse 0 (not the empty-input default 20). */
  lemma PulseNoneRecent(activities: seq<int>, now: int)
    requires activities != []
    requires forall i :: 0 <= i < |activities| ==> !WithinDay(now, activities[i])
    ensures Pulse(activities, now) == 0.0
  {
    forall i | 0 <= i < |activities| ensures !RecentAt(now)(activities[i]) {
      WindowTestsAgree(now, activities[i]);
    }
    CountNone(activities, RecentAt(now));
  }

  datatype Mood = Calm | Anxious | Excited | Serene | Neutral
  {
    /** The string the source returns. */
    function Label(): string
    {
      match this
      case Calm => "calm"
      case Anxious => "anxious"
      case Excited => "excited"
      case Serene => "serene"
      case Neutral => "neutral"
    }
  }

  /**
   * `calculateMood`: the first of calm (t < 30 and p < 40), anxious (t > 70 and
   * p > 60), excited (p > 80), serene (t < 20) that matches, else neutral. The
   * ensures give the region of the plane each label covers once the earlier
   * rules have had their turn.
   */
  function MoodOf(temperature: real, pulse: real): (m: Mood)
    ensures m == Calm <==> temperature < 30.0 && pulse < 40.0
    ensures m == Anxious <==> temperature > 70.0 && pulse > 60.0
    ensures m == Excited <==> pulse > 80.0 && temperature <= 70.0
    ensures m == Serene <==> temperature < 20.0 && 40.0 <= pulse <= 80.0
    ensures m == Neutral <==>
      && 20.0 <= temperature && pulse <= 80.0
      && !(temperature < 30.0 && pulse < 40.0)
      && !(temperature > 70.0 && pulse > 60.0)
  {
    if temperature < 30.0 && pulse < 40.0 then Calm
    else if temperature > 70.0 && pulse > 60.0 then Anxious
    else if pulse > 80.0 then Excited
    else if temperature < 20.0 then Serene
    else Neutral
  }

  /** The labels are five distinct strings. */
  lemma LabelsDistinct(a: Mood, b: Mood)
    ensures a.Label() == b.Label() <==> a == b
  {
  }

  /** A project as the assembler reads it. */
  datatype Project = Project(description: Text)

  /** An agent as the assembler reads it: when it was last active and its projects. */
  datatype Agent = Agent(lastActive: int, projects: seq<Project>)

  /** The record `calculateCollectiveMetrics` returns; `lastUpdated` is absent from the no-agent default. */
  datatype Snapshot = Snapshot(
    temperature: real,
    pulse: real,
    mood: Mood,
    activeAgents: nat,
    totalProjects: nat,
    lastUpdated: Option<int>)

  const DefaultSnapshot: Snapshot := Snapshot(50.0, 20.0, Calm, 0, 0, None)

  /** The sentiments of one agent's projects, in order. */
  function ProjectSentiments(projects: seq<Project>): (r: seq<real>)
    ensures |r| == |projects|
    ensures forall i :: 0 <= i < |r| ==> r[i] == Sentiment(projects[i].description)
  {
    seq(|projects|, i requires 0 <= i < |projects| => Sentiment(projects[i].description))
  }

  /** `agents.flatMap(agent => agent.projects.map(project => calculateSentiment(project.description)))`. */
  function Sentiments(agents: seq<Agent>): seq<real>
  {
    if agents == [] then []
    else Sentiments(agents[..|agents| - 1]) + ProjectSentiments(agents[|agents| - 1].projects)
  }

  /** `agents.flatMap(agent => [agent.lastActive])`. */
  function Activities(agents: seq<Agent>): (r: seq<int>)
    ensures |r| == |agents|
    ensures forall i :: 0 <= i < |r| ==> r[i] == agents[i].lastActive
  {
    seq(|agents|, i requires 0 <= i < |agents| => agents[i].lastActive)
  }

  /** `agents.reduce((sum, agent) => sum + agent.projects.length, 0)`. */
  function TotalProjects(agents: seq<Agent>): nat
  {
    if agents == [] then 0 else TotalProjects(agents[..|agents| - 1]) + |agents[|agents| - 1].projects|
  }

  function ActiveAt(now: int): Agent -> bool
  {
    (agent: Agent) => WithinDay(now, agent.lastActive)
  }

  /** `calculateCollectiveMetrics`, with the clock read once. */
  function CollectiveMetrics(agents: Option<seq<Agent>>, now: int): (s: Snapshot)
    ensures agents.None? || agents.value == [] ==> s == DefaultSnapshot
    ensures agents.Some? && agents.value != [] ==>
      && s.lastUpdated == Some(now)
      && s.activeAgents <= |agents.value|
      && s.mood == MoodOf(s.temperature, s.pulse)
    ensures 0.0 <= s.temperature <= 100.0 && 0.0 <= s.pulse <= 100.0
  {
    if agents.None? || agents.value == [] then DefaultSnapshot
    else
      var all := agents.value;
      var temperature := Temperature(Sentiments(all));
      var pulse := Pulse(Activities(all), now);
      Snapshot(temperature, pulse, MoodOf(temperature, pulse),
               Count(all, ActiveAt(now)), TotalProjects(all), Some(now))
  }

  /** There is one sentiment per project: the `undefined` filter removes nothing. */
  lemma {:induction false} SentimentsPerProject(agents: seq<Agent>)
    ensures |Sentiments(agents)| == TotalProjects(agents)
  {
    if agents != [] {
      SentimentsPerProject(agents[..|agents| - 1]);
    }
  }

  /** Every sentiment fed to the temperature lies in [-1, 1]. */
  lemma {:induction false} SentimentsWithinUnit(agents: seq<Agent>)
    ensures forall i :: 0 <= i < |Sentiments(agents)| ==> -1.0 <= Sentiments(agents)[i] <= 1.0
  {
    if agents != [] {
      SentimentsWithinUnit(agents[..|agents| - 1]);
    }
  }

  /** The pulse counts the same agents as `activeAgents`. */
  lemma {:induction false} RecentActivitiesAreActiveAgents(agents: seq<Agent>, now: int)
    ensures Count(Activities(agents), RecentAt(now)) == Count(agents, ActiveAt(now))
  {
    if agents != [] {
      var init := agents[..|agents| - 1];
      assert Activities(agents)[..|agents| - 1] == Activities(init);
      RecentActivitiesAreActiveAgents(init, now);
      WindowTestsAgree(now, agents[|agents| - 1].lastActive);
    }
  }

  /** With one shared clock the pulse is the percentage of active agents. */
  lemma SnapshotPulse(agents: seq<Agent>, now: int)
    requires agents != []
    ensures CollectiveMetrics(Some(agents), now).pulse
         == CollectiveMetrics(Some(agents), now).activeAgents as real * 100.0 / |agents| as real
  {
    var active := Count(agents, ActiveAt(now));
    RecentActivitiesAreActiveAgents(agents, now);
    FractionWithinUnit(active, |agents|);
    var n := |agents| as real;
    assert (active as real / n) * 100.0 == active as real * 100.0 / n;
  }

  /** The project total is the number of scored sentiments, and the temperature is the unclamped 50 - 30 * mean. */
  lemma SnapshotTemperature(agents: seq<Agent>, now: int)
    requires agents != []
    ensures CollectiveMetrics(Some(agents), now).totalProjects == |Sentiments(agents)|
    ensures Sentiments(agents) != [] ==>
              CollectiveMetrics(Some(agents), now).temperature == 50.0 - Mean(Sentiments(agents)) * 30.0
    ensures 20.0 <= CollectiveMetrics(Some(agents), now).temperature <= 80.0
  {
    SentimentsPerProject(agents);
    SentimentsWithinUnit(agents);
    if Sentiments(agents) != [] {
      TemperatureOfScores(Sentiments(agents));
    }
  }

  /** The no-agent default says calm, but the classifier itself gives neutral for its temperature and pulse. */
  lemma DefaultMoodIsNotClassified()
    ensures DefaultSnapshot.mood == Calm
    ensures MoodOf(DefaultSnapshot.temperature, DefaultSnapshot.pulse) == Neutral
  {
  }
}
