/** The SLA clock of a pending dispute: deadlines, one escalation, advisory notices. */
module DisputeSla {
  import opened Text

  const HOUR_MS := 3600000

  datatype Stage = InitialReview | Escalated

  datatype Kind = Approaching | Breached

  /** A notice that was sent, with the stage the dispute was in afterwards. */
  datatype Notice = Notice(kind: Kind, stage: Stage, escalated: bool, at: int)

  datatype Config = Config(approachingHours: real, escalationHours: int, reescalationHours: real)

  /** The SLA columns of a dispute and the log of its notices. */
  datatype Clock = Clock(
    stage: Stage,
    deadline: int,
    breachedAt: Option<int>,
    approachingNotifiedAt: Option<int>,
    breachedNotifiedAt: Option<int>,
    notices: seq<Notice>)

  datatype Outcome = NoChange | IsApproaching | IsBreached | IsEscalated

  function Started(deadline: int): Clock {
    Clock(InitialReview, deadline, None, None, None, [])
  }

  function Hours(from: int, to: int): real {
    (to - from) as real / HOUR_MS as real
  }

  function Send(c: Clock, kind: Kind, escalated: bool, now: int): Clock {
    c.(notices := c.notices + [Notice(kind, c.stage, escalated, now)])
  }

  /** One SLA evaluation of a pending dispute. */
  function Evaluate(c: Clock, now: int, cfg: Config): (Outcome, Clock) {
    if now < c.deadline then
      if Hours(now, c.deadline) <= cfg.approachingHours && c.approachingNotifiedAt.None?
      then (IsApproaching, Send(c.(approachingNotifiedAt := Some(now)), Approaching, false, now))
      else (NoChange, c)
    else if c.breachedAt.None? then
      var hit := c.(breachedAt := Some(now), breachedNotifiedAt := Some(now));
      if c.stage == InitialReview
      then (IsEscalated, Send(hit.(stage := Escalated, deadline := now + cfg.escalationHours * HOUR_MS,
                                   approachingNotifiedAt := None), Breached, true, now))
      else (IsBreached, Send(hit, Breached, false, now))
    else if c.breachedNotifiedAt.None? || Hours(c.breachedNotifiedAt.value, now) >= cfg.reescalationHours
    then (IsBreached, Send(c.(breachedNotifiedAt := Some(now)), Breached, false, now))
    else (NoChange, c)
  }

  function EvaluateRun(c: Clock, times: seq<int>, cfg: Config): Clock
    decreases |times|
  {
    if times == [] then c else EvaluateRun(Evaluate(c, times[0], cfg).1, times[1..], cfg)
  }

  // ------------------------------------------------------------------ the notices

  /** The times of the breach notices, in order of sending. */
  function BreachTimes(ns: seq<Notice>): seq<int> {
    if ns == [] then []
    else BreachTimes(ns[..|ns| - 1]) + if ns[|ns| - 1].kind == Breached then [ns[|ns| - 1].at] else []
  }

  function ApproachingCount(ns: seq<Notice>, stage: Stage): nat {
    if ns == [] then 0
    else ApproachingCount(ns[..|ns| - 1], stage) +
         if ns[|ns| - 1].kind == Approaching && ns[|ns| - 1].stage == stage then 1 else 0
  }

  function EscalationCount(ns: seq<Notice>): nat {
    if ns == [] then 0
    else EscalationCount(ns[..|ns| - 1]) + if ns[|ns| - 1].escalated then 1 else 0
  }

  predicate Spaced(times: seq<int>, hours: real) {
    forall i :: 0 <= i < |times| - 1 ==> Hours(times[i], times[i + 1]) >= hours
  }

  /** What holds of every clock, whatever the sweep times are. */
  predicate ClockInv(c: Clock, cfg: Config) {
    var breaches := BreachTimes(c.notices);
    && (c.breachedAt.None? <==> c.stage == InitialReview)
    && (c.breachedAt.None? <==> c.breachedNotifiedAt.None?)
    && (c.breachedAt.None? <==> breaches == [])
    && (c.breachedAt.Some? ==> breaches[|breaches| - 1] == c.breachedNotifiedAt.value)
    && Spaced(breaches, cfg.reescalationHours)
    && EscalationCount(c.notices) == (if c.stage == Escalated then 1 else 0)
    && (forall st :: ApproachingCount(c.notices, st) <= 1)
    && ApproachingCount(c.notices, c.stage) == (if c.approachingNotifiedAt.None? then 0 else 1)
    && (c.stage == InitialReview ==> ApproachingCount(c.notices, Escalated) == 0)
  }

  lemma SendFacts(c: Clock, kind: Kind, escalated: bool, now: int)
    ensures
      var c' := Send(c, kind, escalated, now);
      && BreachTimes(c'.notices) == BreachTimes(c.notices) + (if kind == Breached then [now] else [])
      && EscalationCount(c'.notices) == EscalationCount(c.notices) + (if escalated then 1 else 0)
      && forall st :: ApproachingCount(c'.notices, st) ==
                      ApproachingCount(c.notices, st) + if kind == Approaching && c.stage == st then 1 else 0
  {
    var c' := Send(c, kind, escalated, now);
    assert c'.notices[..|c'.notices| - 1] == c.notices;
  }

  lemma StartedInv(deadline: int, cfg: Config)
    ensures ClockInv(Started(deadline), cfg)
  {
  }

  lemma SpacedSnoc(times: seq<int>, t: int, hours: real)
    requires Spaced(times, hours) && (times != [] ==> Hours(times[|times| - 1], t) >= hours)
    ensures Spaced(times + [t], hours)
  {
    var more := times + [t];
    forall i | 0 <= i < |more| - 1 ensures Hours(more[i], more[i + 1]) >= hours {
      if i < |times| - 1 {
        assert Hours(times[i], times[i + 1]) >= hours;
      }
    }
  }

  lemma ApproachingKeepsInv(c: Clock, now: int, cfg: Config)
    requires ClockInv(c, cfg) && c.approachingNotifiedAt.None?
    ensures ClockInv(Send(c.(approachingNotifiedAt := Some(now)), Approaching, false, now), cfg)
  {
    var hit := c.(approachingNotifiedAt := Some(now));
    SendFacts(hit, Approaching, false, now);
    assert BreachTimes(hit.notices) + [] == BreachTimes(c.notices);
  }

  lemma EscalationKeepsInv(c: Clock, deadline: int, now: int, cfg: Config)
    requires ClockInv(c, cfg) && c.breachedAt.None?
    ensures
      var hit := c.(breachedAt := Some(now), breachedNotifiedAt := Some(now), stage := Escalated,
                    deadline := deadline, approachingNotifiedAt := None);
      ClockInv(Send(hit, Breached, true, now), cfg)
  {
    var hit := c.(breachedAt := Some(now), breachedNotifiedAt := Some(now), stage := Escalated,
                  deadline := deadline, approachingNotifiedAt := None);
    SendFacts(hit, Breached, true, now);
    assert BreachTimes(hit.notices) + [now] == [now];
  }

  lemma BreachKeepsInv(c: Clock, now: int, cfg: Config)
    requires ClockInv(c, cfg) && c.breachedAt.Some? && Hours(c.breachedNotifiedAt.value, now) >= cfg.reescalationHours
    ensures ClockInv(Send(c.(breachedNotifiedAt := Some(now)), Breached, false, now), cfg)
  {
    SendFacts(c.(breachedNotifiedAt := Some(now)), Breached, false, now);
    SpacedSnoc(BreachTimes(c.notices), now, cfg.reescalationHours);
  }

  lemma EvaluateKeepsInv(c: Clock, now: int, cfg: Config)
    requires ClockInv(c, cfg)
    ensures ClockInv(Evaluate(c, now, cfg).1, cfg)
  {
    if now < c.deadline {
      if c.approachingNotifiedAt.None? {
        ApproachingKeepsInv(c, now, cfg);
      }
    } else if c.breachedAt.None? {
      EscalationKeepsInv(c, now + cfg.escalationHours * HOUR_MS, now, cfg);
    } else if Hours(c.breachedNotifiedAt.value, now) >= cfg.reescalationHours {
      BreachKeepsInv(c, now, cfg);
    }
  }

  /**
   Over any sequence of sweeps of a dispute: the breach time is unset exactly while the
   dispute is in initial review, it escalates at most once and only by leaving that
   stage, each stage gets at most one approaching notice, and consecutive breach notices
   are at least the re-escalation interval apart.
   */
  lemma {:induction false} SlaRun(c: Clock, times: seq<int>, cfg: Config)
    requires ClockInv(c, cfg)
    ensures
      var c' := EvaluateRun(c, times, cfg);
      && (c'.breachedAt.None? <==> c'.stage == InitialReview)
      && EscalationCount(c'.notices) == (if c'.stage == Escalated then 1 else 0)
      && (forall st :: ApproachingCount(c'.notices, st) <= 1)
      && Spaced(BreachTimes(c'.notices), cfg.reescalationHours)
      && ClockInv(c', cfg)
    decreases |times|
  {
    if times != [] {
      EvaluateKeepsInv(c, times[0], cfg);
      SlaRun(Evaluate(c, times[0], cfg).1, times[1..], cfg);
    }
  }

  // ---------------------------------------------------- when exactly a notice is sent

  /** The last breach notice on record, if there is one. */
  function LastBreach(ns: seq<Notice>): Option<int> {
    if BreachTimes(ns) == [] then None else Some(BreachTimes(ns)[|BreachTimes(ns)| - 1])
  }

  /** The deadline has passed, and no breach notice was sent or the last one is old enough. */
  predicate BreachIsDue(c: Clock, now: int, cfg: Config) {
    c.deadline <= now
    && (LastBreach(c.notices).None?
        || (now - LastBreach(c.notices).value) as real >= cfg.reescalationHours * 3600000.0)
  }

  /** The deadline is ahead, by no more than the window, and this stage has had no such notice. */
  predicate ApproachIsDue(c: Clock, now: int, cfg: Config) {
    now < c.deadline && (c.deadline - now) as real <= cfg.approachingHours * 3600000.0
    && ApproachingCount(c.notices, c.stage) == 0
  }

  lemma HoursAre(from: int, to: int, hours: real)
    ensures Hours(from, to) >= hours <==> (to - from) as real >= hours * 3600000.0
    ensures Hours(from, to) <= hours <==> (to - from) as real <= hours * 3600000.0
  {
    var d := (to - from) as real;
    assert Hours(from, to) * 3600000.0 == d;
    Scaled(Hours(from, to), hours);
    Scaled(hours, Hours(from, to));
  }

  lemma Scaled(x: real, y: real)
    ensures x >= y <==> x * 3600000.0 >= y * 3600000.0
  {
  }

  /**
   One evaluation, told from the notices on record: a breach notice is sent if and only if
   one is due, an approaching notice if and only if that is due, and nothing else ever is.
   The outcome names exactly what was sent; the first breach moves the dispute to the
   escalated stage with a deadline the escalation hours away, and only that does.
   */
  lemma EvaluatesExactly(c: Clock, now: int, cfg: Config)
    requires ClockInv(c, cfg)
    ensures
      var (o, c') := Evaluate(c, now, cfg);
      && (o == IsEscalated <==> BreachIsDue(c, now, cfg) && c.stage == InitialReview)
      && (o == IsBreached <==> BreachIsDue(c, now, cfg) && c.stage == Escalated)
      && (o == IsApproaching <==> ApproachIsDue(c, now, cfg))
      && (o == NoChange <==> c' == c)
      && c'.notices == c.notices + (if o == NoChange then []
                                    else if o == IsApproaching then [Notice(Approaching, c.stage, false, now)]
                                    else [Notice(Breached, Escalated, o == IsEscalated, now)])
      && c'.stage == (if o == IsEscalated then Escalated else c.stage)
      && c'.deadline == (if o == IsEscalated then now + cfg.escalationHours * 3600000 else c.deadline)
      && c'.breachedAt == (if o == IsEscalated then Some(now) else c.breachedAt)
  {
    if now < c.deadline {
      HoursAre(now, c.deadline, cfg.approachingHours);
    } else if c.breachedNotifiedAt.Some? {
      HoursAre(c.breachedNotifiedAt.value, now, cfg.reescalationHours);
    }
  }

  /**
   No breach is forgotten: after any sweeps of which the last one came at or after the
   deadline there is a breach notice that is of that very sweep or younger than the
   re-escalation interval.
   */
  lemma {:induction false} BreachIsOnRecord(c: Clock, times: seq<int>, now: int, cfg: Config)
    requires ClockInv(c, cfg) && EvaluateRun(c, times, cfg).deadline <= now
    ensures
      var last := LastBreach(EvaluateRun(c, times + [now], cfg).notices);
      last.Some? && (last.value == now || (now - last.value) as real < cfg.reescalationHours * 3600000.0)
    decreases |times|
  {
    if times == [] {
      EvaluatesExactly(c, now, cfg);
      assert [now][1..] == [];
      BreachRecorded(c, now, cfg);
    } else {
      EvaluateKeepsInv(c, times[0], cfg);
      BreachIsOnRecord(Evaluate(c, times[0], cfg).1, times[1..], now, cfg);
      assert (times + [now])[1..] == times[1..] + [now];
    }
  }

  lemma BreachRecorded(c: Clock, now: int, cfg: Config)
    requires ClockInv(c, cfg) && c.deadline <= now
    ensures
      var last := LastBreach(Evaluate(c, now, cfg).1.notices);
      last.Some? && (last.value == now || (now - last.value) as real < cfg.reescalationHours * 3600000.0)
  {
    EvaluatesExactly(c, now, cfg);
    var c' := Evaluate(c, now, cfg).1;
    if BreachIsDue(c, now, cfg) {
      assert c'.notices[..|c'.notices| - 1] == c.notices;
    }
  }

  predicate NonDecreasing(times: seq<int>) {
    forall i, j :: 0 <= i < j < |times| ==> times[i] <= times[j]
  }

  lemma {:induction false} FirstBreachEscalates(c: Clock, times: seq<int>, cfg: Config)
    requires ClockInv(c, cfg) && c.stage == InitialReview && NonDecreasing(times) && times != []
    ensures
      var c' := EvaluateRun(c, times, cfg);
      c'.stage == Escalated <==> times[|times| - 1] >= c.deadline
    decreases |times|
  {
    var c1 := Evaluate(c, times[0], cfg).1;
    EvaluateKeepsInv(c, times[0], cfg);
    if times[0] < c.deadline {
      if |times| > 1 {
        FirstBreachEscalates(c1, times[1..], cfg);
      }
    } else {
      EscalatedStays(c1, times[1..], cfg);
      assert times[0] <= times[|times| - 1];
    }
  }

  lemma {:induction false} EscalatedStays(c: Clock, times: seq<int>, cfg: Config)
    requires c.stage == Escalated
    ensures EvaluateRun(c, times, cfg).stage == Escalated
    decreases |times|
  {
    if times != [] {
      EscalatedStays(Evaluate(c, times[0], cfg).1, times[1..], cfg);
    }
  }
}
