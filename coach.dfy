/**
 * The jungle coach of frontend/public/coach.js: a list of pending timers, the
 * game start, and the messages it shows and speaks. Time is the `now`
 * parameter; a timer is its delay and the reminder it will speak, since the
 * model does not let timers fire.
 */
module Coach {
  import opened Base

  /** An entry of `this.objectives`; times in seconds. */
  datatype Objective = Objective(key: string, name: string, respawnSeconds: int, preWarnSeconds: int)

  const Dragon := Objective("dragon", "Drache", 300, 60)
  const Herald := Objective("herald", "Herold", 360, 60)
  const Baron := Objective("baron", "Baron", 360, 60)

  /** `this.objectives[objKey]`, for the three keys the constructor sets. */
  function ObjectiveOf(key: string): (o: Option<Objective>)
    ensures o.Some? ==> o.value.key == key && o.value in [Dragon, Herald, Baron]
  {
    if key == Dragon.key then Some(Dragon)
    else if key == Herald.key then Some(Herald)
    else if key == Baron.key then Some(Baron)
    else None
  }

  /** What a message announces; the status line shows the latest one. */
  datatype Message =
    | GameStarted
    | ObjectiveGone(name: string, respawnMinutes: int)
    | ObjectiveSoon(name: string, seconds: int)
    | ObjectiveUp(name: string)
    | CsCheckPlanned(minutes: real, target: real)
    | CsCheckDue(minutes: real, target: real)
    | InvalidCs
    | CsPraise(cs: real, minute: int)
    | CsFair(cs: real, minute: int)
    | CsScold(cs: real, minute: int)
    | CoachReset

  /** A `setTimeout`: after `delayMs` the reminder is spoken. */
  datatype Timer = Timer(delayMs: real, reminder: Message)

  /** The timers taking an objective schedules: each only when its delay is positive. */
  function ObjectiveTimers(o: Objective): (ts: seq<Timer>)
    ensures forall t :: t in ts ==> t.delayMs > 0.0
    ensures |ts| <= 2
  {
    var warnDelay := (o.respawnSeconds * 1000 - o.preWarnSeconds * 1000) as real;
    var spawnDelay := (o.respawnSeconds * 1000) as real;
    (if warnDelay > 0.0 then [Timer(warnDelay, ObjectiveSoon(o.name, o.preWarnSeconds))] else []) +
    (if spawnDelay > 0.0 then [Timer(spawnDelay, ObjectiveUp(o.name))] else [])
  }

  /**
   * With a positive warning lead shorter than the respawn, both timers are
   * set, the warning first and exactly the lead before the spawn reminder.
   */
  lemma ObjectiveTimersOrdered(o: Objective)
    requires 0 < o.preWarnSeconds < o.respawnSeconds
    ensures var ts := ObjectiveTimers(o);
      && |ts| == 2
      && ts[0].reminder == ObjectiveSoon(o.name, o.preWarnSeconds)
      && ts[1].reminder == ObjectiveUp(o.name)
      && ts[1].delayMs == (o.respawnSeconds * 1000) as real
      && ts[1].delayMs - ts[0].delayMs == (o.preWarnSeconds * 1000) as real
  {
  }

  /** A lead of at least the respawn time leaves only the spawn reminder. */
  lemma ObjectiveTimersLateWarning(o: Objective)
    requires 0 < o.respawnSeconds <= o.preWarnSeconds
    ensures ObjectiveTimers(o) == [Timer((o.respawnSeconds * 1000) as real, ObjectiveUp(o.name))]
  {
  }

  /** Every configured objective warns a minute ahead and then announces its spawn. */
  lemma ConfiguredObjectives(key: string)
    requires ObjectiveOf(key).Some?
    ensures var o := ObjectiveOf(key).value;
      && ObjectiveTimers(o) == [Timer((o.respawnSeconds * 1000 - 60000) as real, ObjectiveSoon(o.name, 60)),
                                Timer((o.respawnSeconds * 1000) as real, ObjectiveUp(o.name))]
      && (key == "dragon" ==> o.respawnSeconds == 300)
      && (key == "herald" || key == "baron" ==> o.respawnSeconds == 360)
  {
    var o := ObjectiveOf(key).value;
    ObjectiveTimersOrdered(o);
  }

  /** The CS target a `data-cs-timer` button sets for `minutes`. */
  function CsTarget(minutes: real): real
  {
    if minutes == 10.0 then 80.0 else if minutes == 15.0 then 120.0 else 8.0 * minutes
  }

  /** The two fixed targets agree with the rule of thumb, so the target is always eight per minute. */
  lemma CsTargetEightPerMinute(minutes: real)
    ensures CsTarget(minutes) == 8.0 * minutes
  {
  }

  /** The three verdicts of `evaluateCs`, worst first. */
  datatype Tier = Scold | Fair | Praise

  function TierRank(t: Tier): nat
  {
    match t
    case Scold => 0
    case Fair => 1
    case Praise => 2
  }

  /** The verdict for `cs` against `target`. */
  function TierOf(cs: real, target: real): (t: Tier)
    ensures t == Praise <==> cs >= target
    ensures t == Scold <==> cs < target && cs < target * 0.75
  {
    if cs >= target then Praise
    else if cs >= target * 0.75 then Fair
    else Scold
  }

  /** More CS never earns a worse verdict. */
  lemma TierMonotone(cs1: real, cs2: real, target: real)
    requires cs1 <= cs2
    ensures TierRank(TierOf(cs1, target)) <= TierRank(TierOf(cs2, target))
  {
  }

  /** `evaluateCs`: `None` is a `null` value; the value otherwise goes through `isNaN` and `Number`. */
  function CsMessage(value: Option<string>, minute: int, target: real): (m: Message)
    ensures value.None? ==> m == InvalidCs
    ensures value.Some? ==> (m == InvalidCs <==> NumberOf(value.value).NaN?)
    ensures m.CsPraise? || m.CsFair? || m.CsScold? ==>
      value.Some? && NumberOf(value.value) == Num(m.cs) && m.minute == minute &&
      TierOf(m.cs, target) == (if m.CsPraise? then Praise else if m.CsFair? then Fair else Scold)
  {
    if value.None? || NumberOf(value.value).NaN? then InvalidCs
    else
      var cs := NumberOf(value.value).value;
      match TierOf(cs, target)
      case Praise => CsPraise(cs, minute)
      case Fair => CsFair(cs, minute)
      case Scold => CsScold(cs, minute)
  }

  /** An empty input is taken as 0 CS (`Number("")` is 0), so it is scolded against a positive target. */
  lemma EmptyCsScolded(minute: int, target: real)
    requires target > 0.0
    ensures CsMessage(Some(""), minute, target) == CsScold(0.0, minute)
  {
    assert Trim("") == "";
  }

  class JungleCoach {
    var timers: seq<Timer>
    var gameStart: Option<int>
    /** The text of the status element; `None` before anything is shown. */
    var status: Option<Message>
    /** What was handed to speech synthesis, oldest first. */
    var spoken: seq<Message>
    /** Whether the browser offers speech synthesis. */
    const voice: bool

    constructor (voice: bool)
      ensures timers == [] && gameStart == None && status == None && spoken == [] && this.voice == voice
    {
      timers := [];
      gameStart := None;
      status := None;
      spoken := [];
      this.voice := voice;
    }

    /** `speak`: spoken when there is a voice, shown either way. */
    method Speak(m: Message)
      modifies this
      ensures status == Some(m)
      ensures spoken == old(spoken) + (if voice then [m] else [])
      ensures timers == old(timers) && gameStart == old(gameStart)
    {
      if voice {
        spoken := spoken + [m];
      }
      status := Some(m);
    }

    method ClearAllTimers()
      modifies this
      ensures timers == []
      ensures gameStart == old(gameStart) && status == old(status) && spoken == old(spoken)
    {
      timers := [];
    }

    method StartGame(now: int)
      modifies this
      ensures timers == [] && gameStart == Some(now)
      ensures status == Some(GameStarted) && spoken == old(spoken) + (if voice then [GameStarted] else [])
    {
      ClearAllTimers();
      gameStart := Some(now);
      Speak(GameStarted);
    }

    /** `handleObjectiveTaken`: an unknown key does nothing; otherwise announce and schedule. */
    method HandleObjectiveTaken(key: string)
      modifies this
      ensures ObjectiveOf(key).None? ==>
        timers == old(timers) && gameStart == old(gameStart) && status == old(status) && spoken == old(spoken)
      ensures ObjectiveOf(key).Some? ==>
        var o := ObjectiveOf(key).value;
        var m := ObjectiveGone(o.name, Round(o.respawnSeconds as real / 60.0));
        && timers == old(timers) + ObjectiveTimers(o)
        && gameStart == old(gameStart)
        && status == Some(m)
        && spoken == old(spoken) + (if voice then [m] else [])
    {
      var objective := ObjectiveOf(key);
      if objective.None? {
        return;
      }
      var o := objective.value;
      Speak(ObjectiveGone(o.name, Round(o.respawnSeconds as real / 60.0)));
      var warnDelay := (o.respawnSeconds * 1000 - o.preWarnSeconds * 1000) as real;
      if warnDelay > 0.0 {
        timers := timers + [Timer(warnDelay, ObjectiveSoon(o.name, o.preWarnSeconds))];
      }
      var spawnDelay := (o.respawnSeconds * 1000) as real;
      if spawnDelay > 0.0 {
        timers := timers + [Timer(spawnDelay, ObjectiveUp(o.name))];
      }
    }

    /** `scheduleCsCheck`: exactly one timer, due after the given minutes. */
    method ScheduleCsCheck(minutes: real, target: real)
      modifies this
      ensures timers == old(timers) + [Timer(minutes * 60000.0, CsCheckDue(minutes, target))]
      ensures status == Some(CsCheckPlanned(minutes, target))
      ensures gameStart == old(gameStart) && spoken == old(spoken)
    {
      timers := timers + [Timer(minutes * 60.0 * 1000.0, CsCheckDue(minutes, target))];
      status := Some(CsCheckPlanned(minutes, target));
    }

    /** `evaluateCs`: an unusable value is only shown; a verdict is spoken. */
    method EvaluateCs(value: Option<string>, minute: int, target: real)
      modifies this
      ensures status == Some(CsMessage(value, minute, target))
      ensures spoken == old(spoken) + (if voice && CsMessage(value, minute, target) != InvalidCs then [CsMessage(value, minute, target)] else [])
      ensures timers == old(timers) && gameStart == old(gameStart)
    {
      var m := CsMessage(value, minute, target);
      if m == InvalidCs {
        status := Some(InvalidCs);
        return;
      }
      Speak(m);
    }

    method ResetAll()
      modifies this
      ensures timers == [] && gameStart == None
      ensures status == Some(CoachReset) && spoken == old(spoken)
    {
      ClearAllTimers();
      gameStart := None;
      status := Some(CoachReset);
    }
  }
}
