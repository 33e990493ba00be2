/** `ContractionTimerView`: times contractions, keeps the finished ones
    newest first, and derives the 5-1-1 statistics from the ten most recent. */
module ContractionTimer {
  import opened Wrappers
  import opened DataModels
  import opened HealthModels
  import opened TimeFormat

  /** How many finished contractions the statistics look at. */
  const MaxRecent: nat := 10

  /** The 5-1-1 rule: at most five minutes apart, at least a minute long,
      over at least twelve contractions. */
  const HospitalMaxInterval: real := 300.0
  const HospitalMinDuration: real := 60.0
  const HospitalMinCount: nat := 12

  const HospitalAlertMessage: string :=
    "Your contractions are 5 minutes apart, lasting 1 minute or more, for at least an hour. It's time to contact your healthcare provider or go to the hospital."

  /** `contractions.filter { $0.endDate != nil }`. */
  function Finished(cs: seq<Contraction>): (r: seq<Contraction>)
    reads cs
    ensures |r| <= |cs|
    ensures forall k :: 0 <= k < |r| ==> r[k].endDate.Some? && r[k] in cs
    ensures forall k :: 0 <= k < |cs| && cs[k].endDate.Some? ==> cs[k] in r
    decreases |cs|
  {
    if |cs| == 0 then []
    else if cs[0].endDate.Some? then [cs[0]] + Finished(cs[1..])
    else Finished(cs[1..])
  }

  /** Filtering a concatenation filters each part in turn. With
      `FinishedSingle` this fixes the result: the finished contractions, each
      as often as the list holds it, in list order. */
  lemma {:induction false} FinishedAppend(a: seq<Contraction>, b: seq<Contraction>)
    ensures Finished(a + b) == Finished(a) + Finished(b)
    decreases |a|
  {
    if |a| == 0 {
      assert a + b == b;
    } else {
      assert (a + b)[1..] == a[1..] + b;
      FinishedAppend(a[1..], b);
    }
  }

  /** One contraction stays exactly when it is finished. */
  lemma FinishedSingle(x: Contraction)
    ensures Finished([x]) == if x.endDate.Some? then [x] else []
  {
    assert [x][1..] == [];
  }

  /** The order of the `@Query`: by start date, newest first. */
  ghost predicate NewestFirst(cs: seq<Contraction>)
    reads cs
  {
    forall i, j :: 0 <= i < j < |cs| ==> cs[i].startDate >= cs[j].startDate
  }

  /** Filtering keeps every start date under a bound that holds for all. */
  lemma {:induction false} FinishedStartsAtMost(cs: seq<Contraction>, bound: Instant)
    requires forall k :: 0 <= k < |cs| ==> cs[k].startDate <= bound
    ensures forall k :: 0 <= k < |Finished(cs)| ==> Finished(cs)[k].startDate <= bound
    decreases |cs|
  {
    if |cs| > 0 {
      FinishedStartsAtMost(cs[1..], bound);
    }
  }

  /** Putting a contraction that started no earlier than all others in front
      keeps the order. */
  lemma PrependNewestFirst(c: Contraction, f: seq<Contraction>)
    requires NewestFirst(f)
    requires forall k :: 0 <= k < |f| ==> f[k].startDate <= c.startDate
    ensures NewestFirst([c] + f)
  {
    var r := [c] + f;
    forall i, j | 0 <= i < j < |r| ensures r[i].startDate >= r[j].startDate {
      assert r[j] == f[j - 1];
      if i > 0 {
        assert r[i] == f[i - 1];
      }
    }
  }

  /** Filtering keeps the newest-first order. */
  lemma {:induction false} FinishedNewestFirst(cs: seq<Contraction>)
    requires NewestFirst(cs)
    ensures NewestFirst(Finished(cs))
    decreases |cs|
  {
    if |cs| > 0 {
      var t := cs[1..];
      assert NewestFirst(t) by {
        forall i, j | 0 <= i < j < |t| ensures t[i].startDate >= t[j].startDate {
          assert t[i] == cs[i + 1] && t[j] == cs[j + 1];
        }
      }
      FinishedNewestFirst(t);
      if cs[0].endDate.Some? {
        forall k | 0 <= k < |t| ensures t[k].startDate <= cs[0].startDate {
          assert t[k] == cs[k + 1];
        }
        FinishedStartsAtMost(t, cs[0].startDate);
        PrependNewestFirst(cs[0], Finished(t));
      }
    }
  }

  /** `recentContractions`: the first ten finished contractions. */
  function RecentContractions(cs: seq<Contraction>): (r: seq<Contraction>)
    reads cs
    ensures |r| <= MaxRecent
    ensures |r| == if |Finished(cs)| <= MaxRecent then |Finished(cs)| else MaxRecent
    ensures r == Finished(cs)[..|r|]
    ensures forall k :: 0 <= k < |r| ==> r[k].endDate.Some? && r[k] in cs
  {
    Prefix(Finished(cs), MaxRecent)
  }

  /** The recent contractions are newest first when the list is. */
  lemma RecentNewestFirst(cs: seq<Contraction>)
    requires NewestFirst(cs)
    ensures NewestFirst(RecentContractions(cs))
  {
    FinishedNewestFirst(cs);
    var f := Finished(cs);
    var r := RecentContractions(cs);
    forall i, j | 0 <= i < j < |r| ensures r[i].startDate >= r[j].startDate {
      assert r[i] == f[i] && r[j] == f[j];
    }
  }

  /** The start dates of a list of contractions. */
  function StartDates(cs: seq<Contraction>): (r: seq<Instant>)
    reads cs
    ensures |r| == |cs| && forall k :: 0 <= k < |cs| ==> r[k] == cs[k].startDate
    decreases |cs|
  {
    if |cs| == 0 then [] else [cs[0].startDate] + StartDates(cs[1..])
  }

  /** The recorded durations of a list of contractions. */
  function Durations(cs: seq<Contraction>): (r: seq<int>)
    reads cs
    ensures |r| == |cs| && forall k :: 0 <= k < |cs| ==> r[k] == cs[k].duration
    decreases |cs|
  {
    if |cs| == 0 then [] else [cs[0].duration] + Durations(cs[1..])
  }

  /** The ids of a list of contractions. */
  function Ids(cs: seq<Contraction>): (r: seq<Id>)
    reads cs
    ensures |r| == |cs| && forall k :: 0 <= k < |cs| ==> r[k] == cs[k].id
    decreases |cs|
  {
    if |cs| == 0 then [] else [cs[0].id] + Ids(cs[1..])
  }

  function Abs(x: int): int
  {
    if x < 0 then -x else x
  }

  /** The gaps between consecutive start dates, as `abs` of their difference. */
  function Gaps(starts: seq<Instant>): (g: seq<int>)
    ensures |starts| < 2 ==> g == []
    ensures |starts| >= 2 ==> |g| == |starts| - 1
    ensures forall k :: 0 <= k < |g| ==> g[k] == Abs(starts[k] - starts[k + 1])
    decreases |starts|
  {
    if |starts| < 2 then [] else [Abs(starts[0] - starts[1])] + Gaps(starts[1..])
  }

  /** `reduce(0, +)`. */
  function Sum(xs: seq<int>): int
    decreases |xs|
  {
    if |xs| == 0 then 0 else Sum(xs[..|xs| - 1]) + xs[|xs| - 1]
  }

  /** Summing a concatenation sums the parts. */
  lemma {:induction false} SumAppend(a: seq<int>, b: seq<int>)
    ensures Sum(a + b) == Sum(a) + Sum(b)
    decreases |b|
  {
    if |b| == 0 {
      assert a + b == a;
    } else {
      assert (a + b)[..|a + b| - 1] == a + b[..|b| - 1];
      SumAppend(a, b[..|b| - 1]);
    }
  }

  /** The sum of one number is that number. */
  lemma SumSingle(x: int)
    ensures Sum([x]) == x
  {
    assert [x][..0] == [];
  }

  /** A sum of non-negative numbers is non-negative. */
  lemma {:induction false} SumNonNegative(xs: seq<int>)
    requires forall k :: 0 <= k < |xs| ==> xs[k] >= 0
    ensures Sum(xs) >= 0
    decreases |xs|
  {
    if |xs| > 0 {
      SumNonNegative(xs[..|xs| - 1]);
    }
  }

  /** The gap list has one gap fewer than there are start dates, none negative. */
  lemma GapsShape(starts: seq<Instant>)
    requires |starts| >= 2
    ensures |Gaps(starts)| == |starts| - 1
    ensures forall k :: 0 <= k < |Gaps(starts)| ==> Gaps(starts)[k] == Abs(starts[k] - starts[k + 1]) >= 0
  {
  }

  /** Gaps collected pairwise from the contractions are the gaps of their
      start dates. */
  lemma IntervalsAreGaps(cs: seq<Contraction>, intervals: seq<int>)
    requires |cs| >= 2 && |intervals| == |cs| - 1
    requires forall k :: 0 <= k < |intervals| ==> intervals[k] == Abs(cs[k].startDate - cs[k + 1].startDate)
    ensures intervals == Gaps(StartDates(cs))
  {
    var starts := StartDates(cs);
    var gaps := Gaps(starts);
    forall k | 0 <= k < |intervals| ensures intervals[k] == gaps[k] {
      assert starts[k] == cs[k].startDate && starts[k + 1] == cs[k + 1].startDate;
    }
  }

  /** `total / Double(n)` for a positive count: the number that, taken `n`
      times, gives the total. */
  function Mean(total: int, n: nat): (m: real)
    requires n > 0
    ensures m * n as real == total as real
    ensures total >= 0 ==> m >= 0.0
  {
    total as real / n as real
  }

  /** `reduce(0, +) / Double(count)` guarded against an empty list: the
      average of the numbers, none for no numbers. */
  function Average(xs: seq<int>): (r: Option<real>)
    ensures r.None? <==> |xs| == 0
  {
    if |xs| == 0 then None else Some(Mean(Sum(xs), |xs|))
  }

  /** The average of some numbers, taken as many times as there are numbers,
      gives their total; it is never negative when no number is. */
  lemma AverageIsMean(xs: seq<int>)
    requires |xs| > 0
    ensures Average(xs).value * |xs| as real == Sum(xs) as real
    ensures (forall k :: 0 <= k < |xs| ==> xs[k] >= 0) ==> Average(xs).value >= 0.0
  {
    if forall k :: 0 <= k < |xs| ==> xs[k] >= 0 {
      SumNonNegative(xs);
    }
  }

  /** `averageInterval` as a value: the average gap between consecutive
      starts, none for fewer than two contractions. */
  function MeanInterval(starts: seq<Instant>): (r: Option<real>)
    ensures r.None? <==> |starts| < 2
  {
    if |starts| < 2 then None else Average(Gaps(starts))
  }

  /** With two or more starts the interval is the mean gap: taken once per
      gap it gives the total of the gaps, and it is never negative. */
  lemma MeanIntervalIsMean(starts: seq<Instant>)
    requires |starts| >= 2
    ensures MeanInterval(starts).value >= 0.0
    ensures MeanInterval(starts).value * |Gaps(starts)| as real == Sum(Gaps(starts)) as real
  {
    var gaps := Gaps(starts);
    GapsShape(starts);
    forall k | 0 <= k < |gaps| ensures gaps[k] >= 0 {
      assert gaps[k] == Abs(starts[k] - starts[k + 1]);
    }
    AverageIsMean(gaps);
  }

  /** `shouldGoToHospital`: both averages exist, there are at least twelve
      recent contractions, and they are at most five minutes apart and at
      least a minute long. */
  function ShouldGoToHospital(cs: seq<Contraction>): bool
    reads cs
  {
    var recent := RecentContractions(cs);
    match MeanInterval(StartDates(recent))
    case None => false
    case Some(avgInterval) =>
      match Average(Durations(recent))
      case None => false
      case Some(avgDuration) =>
        if |recent| < HospitalMinCount then false
        else avgInterval <= HospitalMaxInterval && avgDuration >= HospitalMinDuration
  }

  /** The statistics see at most ten contractions but the rule asks for
      twelve, so the hospital warning never shows. */
  lemma NeverGoToHospital(cs: seq<Contraction>)
    ensures !ShouldGoToHospital(cs)
  {
    assert |RecentContractions(cs)| <= MaxRecent < HospitalMinCount;
  }

  /** `previousContraction(for:)`: the recent contraction after the first one
      with the same id, none for the last one or an unknown id. */
  function PreviousContraction(cs: seq<Contraction>, c: Contraction): (r: Option<Contraction>)
    reads cs, c
    ensures var recent := RecentContractions(cs);
      (forall k :: 0 <= k < |recent| ==> recent[k].id != c.id) ==> r.None?
    ensures var recent := RecentContractions(cs);
      forall i :: 0 <= i < |recent| && recent[i].id == c.id && (forall j :: 0 <= j < i ==> recent[j].id != c.id) ==>
        r == (if i < |recent| - 1 then Some(recent[i + 1]) else None)
  {
    var recent := RecentContractions(cs);
    var ids := Ids(recent);
    var id := c.id;
    var sameId := (x: Id) => x == id;
    assert forall k :: 0 <= k < |recent| ==> (sameId(ids[k]) <==> recent[k].id == c.id);
    match FirstIndex(ids, sameId)
    case Some(index) => if index < |recent| - 1 then Some(recent[index + 1]) else None
    case None => None
  }

  class ContractionTimerView {
    /** The stored contractions in the order the store gives them; the
        `@Query` sorts them newest first, which `Valid` does not require. */
    var contractions: seq<Contraction>
    var currentContraction: Option<Contraction>
    var elapsedTime: nat
    /** Whether the one-second timer is scheduled. */
    var timerRunning: bool
    var showAlert: bool
    var alertMessage: string

    /** The timer runs exactly while a contraction is being timed, and that
        contraction is stored and still open. */
    ghost predicate Valid()
      reads this, contractions
    {
      && (timerRunning <==> currentContraction.Some?)
      && (currentContraction.Some? ==>
            currentContraction.value in contractions && currentContraction.value.endDate.None?)
    }

    constructor(contractions: seq<Contraction>)
      ensures this.contractions == contractions && currentContraction.None?
      ensures elapsedTime == 0 && !timerRunning && !showAlert && alertMessage == ""
      ensures Valid()
    {
      this.contractions := contractions;
      currentContraction := None;
      elapsedTime := 0;
      timerRunning := false;
      showAlert := false;
      alertMessage := "";
    }

    /** `isTimingContraction`. */
    predicate IsTimingContraction()
      reads this
    {
      currentContraction.Some?
    }

    /** `formattedTime`. */
    function FormattedTime(): string
      reads this
    {
      FormatClock(elapsedTime)
    }

    /** `startContraction`: stores a new open contraction starting now and
        times it from zero. */
    method StartContraction(id: Id, now: Instant)
      modifies this`contractions, this`currentContraction, this`elapsedTime, this`timerRunning
      ensures currentContraction.Some? && fresh(currentContraction.value)
      ensures contractions == [currentContraction.value] + old(contractions)
      ensures currentContraction.value.id == id && currentContraction.value.startDate == now
      ensures currentContraction.value.endDate.None? && currentContraction.value.duration == 0
      ensures elapsedTime == 0 && timerRunning
      ensures Valid()
    {
      var contraction := new Contraction(id, now);
      contractions := [contraction] + contractions;
      currentContraction := Some(contraction);
      elapsedTime := 0;
      timerRunning := true;
    }

    /** One firing of the timer. */
    method Tick()
      modifies this`elapsedTime
      ensures elapsedTime == old(elapsedTime) + (if timerRunning then 1 else 0)
      ensures old(Valid()) ==> Valid()
    {
      if timerRunning {
        elapsedTime := elapsedTime + 1;
      }
    }

    /** `stopContraction`: ends the timed contraction now with the elapsed time
        as its duration, resets the timer, and raises the hospital alert when
        the 5-1-1 rule holds (which `NeverGoToHospital` shows it never does). */
    method StopContraction(now: Instant)
      modifies this`currentContraction, this`elapsedTime, this`timerRunning, this`showAlert, this`alertMessage
      modifies (if currentContraction.Some? then {currentContraction.value} else {})`endDate
      modifies (if currentContraction.Some? then {currentContraction.value} else {})`duration
      ensures old(currentContraction).Some? ==>
        old(currentContraction).value.endDate == Some(now) && old(currentContraction).value.duration == old(elapsedTime)
      ensures old(currentContraction).Some? ==>
        && old(currentContraction).value.id == old(currentContraction.value.id)
        && old(currentContraction).value.startDate == old(currentContraction.value.startDate)
        && old(currentContraction).value.notes == old(currentContraction.value.notes)
      ensures currentContraction.None? && elapsedTime == 0 && !timerRunning
      ensures showAlert == (old(showAlert) || ShouldGoToHospital(contractions))
      ensures alertMessage == if ShouldGoToHospital(contractions) then HospitalAlertMessage else old(alertMessage)
      ensures Valid()
    {
      timerRunning := false;
      if currentContraction.Some? {
        var contraction := currentContraction.value;
        contraction.endDate := Some(now);
        contraction.duration := elapsedTime;
      }
      currentContraction := None;
      elapsedTime := 0;
      var alert := ShouldGoToHospital(contractions);
      alertMessage := if alert then HospitalAlertMessage else alertMessage;
      showAlert := showAlert || alert;
    }

    /** `averageInterval`: the gaps between consecutive recent contractions
        collected in a loop, then averaged. */
    method AverageInterval() returns (r: Option<real>)
      ensures r == MeanInterval(StartDates(RecentContractions(contractions)))
    {
      var recent := RecentContractions(contractions);
      if |recent| < 2 {
        return None;
      }
      var intervals: seq<int> := [];
      var i := 0;
      while i < |recent| - 1
        invariant 0 <= i <= |recent| - 1 && |intervals| == i
        invariant forall k :: 0 <= k < i ==> intervals[k] == Abs(recent[k].startDate - recent[k + 1].startDate)
      {
        var interval := recent[i].startDate - recent[i + 1].startDate;
        intervals := intervals + [Abs(interval)];
        i := i + 1;
      }
      IntervalsAreGaps(recent, intervals);
      r := Some(Mean(Sum(intervals), |intervals|));
    }

    /** `averageDuration`. */
    function AverageDuration(): (r: Option<real>)
      reads this, contractions
      ensures r.None? <==> |Finished(contractions)| == 0
    {
      Average(Durations(RecentContractions(contractions)))
    }
  }

  /** `averageDuration` is the mean duration of the recent contractions:
      times their number it gives their total. */
  lemma AverageDurationIsMean(v: ContractionTimerView)
    ensures var d := Durations(RecentContractions(v.contractions));
      v.AverageDuration().Some? ==> |d| > 0 && v.AverageDuration().value * |d| as real == Sum(d) as real
  {
    var d := Durations(RecentContractions(v.contractions));
    if |d| > 0 {
      AverageIsMean(d);
    }
  }
}
