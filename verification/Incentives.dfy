/** Volume-incentive shares (docs/pump-sdk/src/tokenIncentives.ts). */
module Incentives {
  import opened Common
  import opened Fees
  import Quotients

  datatype GlobalVolume = GlobalVolume(
    startTime: int, endTime: int, secondsInADay: int, totalTokenSupply: seq<int>, solVolumes: seq<int>)

  datatype UserVolume = UserVolume(totalUnclaimedTokens: int, currentSolVolume: int, lastUpdateTimestamp: int)

  /** Reading an array in JavaScript; None: undefined, on which a method call throws. */
  function At(a: seq<int>, i: int): Option<int> {
    if 0 <= i < |a| then Some(a[i]) else None
  }

  /** A user's part of one day's supply; None: an array read came back undefined. */
  function DayShare(g: GlobalVolume, u: UserVolume, day: int): Option<int> {
    match At(g.solVolumes, day)
    case None => None
    case Some(volume) =>
      if volume == 0 then Some(0)
      else match At(g.totalTokenSupply, day)
        case None => None
        case Some(supply) => Some(BnDiv(u.currentSolVolume * supply, volume))
  }

  /** Day index of a time; only asked once the length of a day is known not to be 0. */
  function DayOf(g: GlobalVolume, t: int): int
    requires g.secondsInADay != 0
  {
    BnDiv(t - g.startTime, g.secondsInADay)
  }

  /** `totalUnclaimedTokens` at a whole-second time; None: it throws. */
  function TotalUnclaimed(g: GlobalVolume, u: UserVolume, now: int): Option<int> {
    var result := u.totalUnclaimedTokens;
    if g.startTime == 0 || g.endTime == 0 || g.secondsInADay == 0 then Some(result)
    else if now < g.startTime then Some(result)
    else
      var today := DayOf(g, now);
      if u.lastUpdateTimestamp < g.startTime then Some(result)
      else
        var lastDay := DayOf(g, u.lastUpdateTimestamp);
        if g.endTime < g.startTime then Some(result)
        else
          var endDay := DayOf(g, g.endTime);
          if today > lastDay && lastDay <= endDay then
            match DayShare(g, u, lastDay)
            case None => None
            case Some(share) => Some(result + share)
          else Some(result)
  }

  /** `currentDayTokens` at a whole-second time; None: it throws. */
  function CurrentDay(g: GlobalVolume, u: UserVolume, now: int): Option<int> {
    if g.startTime == 0 || g.endTime == 0 || g.secondsInADay == 0 then Some(0)
    else if now < g.startTime || now > g.endTime then Some(0)
    else
      var today := DayOf(g, now);
      if u.lastUpdateTimestamp < g.startTime then Some(0)
      else
        var lastDay := DayOf(g, u.lastUpdateTimestamp);
        if g.endTime < g.startTime then Some(0)
        else if today != lastDay then Some(0)
        else DayShare(g, u, today)
  }

  // ---------------------------------------------------------------- one share at a time

  /** The program is set up, has started and is not empty, and the user traded in it. */
  predicate Running(g: GlobalVolume, u: UserVolume, now: int) {
    && g.startTime != 0 && g.endTime != 0 && g.secondsInADay != 0
    && g.startTime <= now && g.startTime <= u.lastUpdateTimestamp && g.startTime <= g.endTime
  }

  /** The user's last day is over and was part of the program. */
  predicate LastDayClosed(g: GlobalVolume, u: UserVolume, now: int) {
    && Running(g, u, now)
    && DayOf(g, u.lastUpdateTimestamp) < DayOf(g, now)
    && DayOf(g, u.lastUpdateTimestamp) <= DayOf(g, g.endTime)
  }

  /** The user's last day is today and the program is not over. */
  predicate LastDayOpen(g: GlobalVolume, u: UserVolume, now: int) {
    && Running(g, u, now)
    && DayOf(g, u.lastUpdateTimestamp) == DayOf(g, now)
    && now <= g.endTime
  }

  /** Both functions answer at this time. */
  predicate Answers(g: GlobalVolume, u: UserVolume, now: int) {
    TotalUnclaimed(g, u, now).Some? && CurrentDay(g, u, now).Some?
  }

  /** What the two answers together add to the balance already stored. */
  function Extra(g: GlobalVolume, u: UserVolume, now: int): int
    requires Answers(g, u, now)
  {
    TotalUnclaimed(g, u, now).value + CurrentDay(g, u, now).value - u.totalUnclaimedTokens
  }

  /** Together the two functions count the share of the user's last active day, once
      and from one side only, or count nothing. */
  lemma {:induction false} CountedOnce(g: GlobalVolume, u: UserVolume, now: int)
    requires Answers(g, u, now)
    ensures !(LastDayClosed(g, u, now) && LastDayOpen(g, u, now))
    ensures Extra(g, u, now) ==
            if LastDayClosed(g, u, now) || LastDayOpen(g, u, now)
            then DayShare(g, u, DayOf(g, u.lastUpdateTimestamp)).value
            else 0
    ensures LastDayClosed(g, u, now) ==> CurrentDay(g, u, now) == Some(0)
    ensures !LastDayClosed(g, u, now) ==> TotalUnclaimed(g, u, now) == Some(u.totalUnclaimedTokens)
  {
  }

  /** When the functions throw: only on reading a share of a day past the arrays, and a
      day without volume needs no supply. */
  lemma {:induction false} AnswersIff(g: GlobalVolume, u: UserVolume, now: int)
    ensures TotalUnclaimed(g, u, now).None? <==>
      LastDayClosed(g, u, now) && Unreadable(g, DayOf(g, u.lastUpdateTimestamp))
    ensures CurrentDay(g, u, now).None? <==>
      LastDayOpen(g, u, now) && Unreadable(g, DayOf(g, u.lastUpdateTimestamp))
  {
  }

  predicate Unreadable(g: GlobalVolume, day: int) {
    || day < 0 || day >= |g.solVolumes|
    || (g.solVolumes[day] != 0 && day >= |g.totalTokenSupply|)
  }

  /** Later times are not on earlier days. */
  lemma {:induction false} DaysAscend(g: GlobalVolume, a: int, b: int)
    requires g.secondsInADay > 0 && g.startTime <= a <= b
    ensures 0 <= DayOf(g, a) <= DayOf(g, b)
  {
    Quotients.QuotientMonotone(a - g.startTime, b - g.startTime, g.secondsInADay);
    Quotients.QuotientBounds(a - g.startTime, g.secondsInADay);
  }

  /** A share once counted stays counted as time passes, except in one window: after
      the program's end, while the user's last day is still today, neither function
      counts it. It comes back the next day. */
  lemma {:induction false} ShareDropsOutIff(g: GlobalVolume, u: UserVolume, now: int, later: int)
    requires g.secondsInADay > 0 && now <= later
    requires LastDayClosed(g, u, now) || LastDayOpen(g, u, now)
    ensures !(LastDayClosed(g, u, later) || LastDayOpen(g, u, later))
            <==> g.endTime < later && DayOf(g, later) == DayOf(g, u.lastUpdateTimestamp)
  {
    DaysAscend(g, now, later);
    if LastDayOpen(g, u, now) {
      DaysAscend(g, now, g.endTime);
    }
  }

  lemma {:induction false} Tens(t: int)
    requires 100 <= t
    ensures BnDiv(t - 100, 10) == (t - 100) / 10
  {
  }

  function EarlyEnd(): GlobalVolume {
    GlobalVolume(100, 105, 10, [7], [2])
  }

  lemma {:induction false} EarlyEndDay(t: int)
    requires 100 <= t
    ensures DayOf(EarlyEnd(), t) == (t - 100) / 10
  {
    Tens(t);
  }

  lemma {:induction false} EarlyEndShare()
    ensures DayShare(EarlyEnd(), UserVolume(0, 2, 103), 0) == Some(7)
  {
    assert BnDiv(14, 2) == 7;
  }

  /** The window is not empty when the program ends inside a day: a day of ten
      seconds, ending in the middle, and a share of 7 that goes missing for a while. */
  lemma {:induction false} ShareDropsOut(u: UserVolume)
    requires u == UserVolume(0, 2, 103)
    ensures LastDayOpen(EarlyEnd(), u, 104)
    ensures !LastDayOpen(EarlyEnd(), u, 107) && !LastDayClosed(EarlyEnd(), u, 107)
    ensures LastDayClosed(EarlyEnd(), u, 110)
    ensures DayShare(EarlyEnd(), u, DayOf(EarlyEnd(), u.lastUpdateTimestamp)) == Some(7)
  {
    EarlyEndDay(103);
    EarlyEndDay(104);
    EarlyEndDay(105);
    EarlyEndDay(107);
    EarlyEndDay(110);
    EarlyEndShare();
  }

  // ---------------------------------------------------------------- many users

  function DayVolume(g: GlobalVolume, us: seq<UserVolume>, day: int): int
    requires g.secondsInADay != 0
  {
    if us == [] then 0
    else
      var u := us[|us| - 1];
      DayVolume(g, us[..|us| - 1], day) + if DayOf(g, u.lastUpdateTimestamp) == day then u.currentSolVolume else 0
  }

  /** What the users active on one day are credited beyond their stored balances. */
  function DayPayout(g: GlobalVolume, us: seq<UserVolume>, day: int, now: int): int
    requires g.secondsInADay != 0 && forall u :: u in us ==> Answers(g, u, now)
  {
    if us == [] then 0
    else
      var u := us[|us| - 1];
      DayPayout(g, us[..|us| - 1], day, now) + if DayOf(g, u.lastUpdateTimestamp) == day then Extra(g, u, now) else 0
  }

  function Payout(g: GlobalVolume, us: seq<UserVolume>, now: int): int
    requires forall u :: u in us ==> Answers(g, u, now)
  {
    if us == [] then 0 else Payout(g, us[..|us| - 1], now) + Extra(g, us[|us| - 1], now)
  }

  function Sum(a: seq<int>): int {
    if a == [] then 0 else Sum(a[..|a| - 1]) + a[|a| - 1]
  }

  /** Supplies and volumes are amounts. */
  predicate Amounts(g: GlobalVolume, us: seq<UserVolume>) {
    && (forall i :: 0 <= i < |g.totalTokenSupply| ==> g.totalTokenSupply[i] >= 0)
    && (forall i :: 0 <= i < |g.solVolumes| ==> g.solVolumes[i] >= 0)
    && (forall u :: u in us ==> u.currentSolVolume >= 0)
  }

  lemma {:induction false} ShareBound(volume: nat, supply: nat, total: nat)
    requires total > 0
    ensures 0 <= BnDiv(volume * supply, total)
    ensures total * BnDiv(volume * supply, total) <= supply * volume
  {
    assert volume * supply >= 0;
  }

  /** What a user is credited, scaled by the day's volume, is at most the user's
      volume scaled by the day's supply. */
  lemma {:induction false} ExtraBound(g: GlobalVolume, u: UserVolume, now: int, day: int)
    requires Answers(g, u, now) && Amounts(g, [u]) && g.secondsInADay != 0
    requires DayOf(g, u.lastUpdateTimestamp) == day
    ensures Extra(g, u, now) >= 0
    ensures Extra(g, u, now) != 0 ==> 0 <= day < |g.totalTokenSupply| && day < |g.solVolumes| && g.solVolumes[day] > 0
    ensures 0 <= day < |g.totalTokenSupply| && day < |g.solVolumes| ==>
              g.solVolumes[day] * Extra(g, u, now) <= g.totalTokenSupply[day] * u.currentSolVolume
  {
    assert u in [u];
    CountedOnce(g, u, now);
    if 0 <= day < |g.totalTokenSupply| && day < |g.solVolumes| {
      Product(g.totalTokenSupply[day], u.currentSolVolume);
      if g.solVolumes[day] > 0 {
        ShareBound(u.currentSolVolume, g.totalTokenSupply[day], g.solVolumes[day]);
      }
    }
  }

  lemma {:induction false} Product(a: nat, b: nat)
    ensures a * b >= 0
  {
  }

  lemma {:induction false} DayScaled(g: GlobalVolume, us: seq<UserVolume>, day: nat, now: int)
    requires g.secondsInADay != 0 && Amounts(g, us) && forall u :: u in us ==> Answers(g, u, now)
    requires day < |g.totalTokenSupply| && day < |g.solVolumes|
    ensures g.solVolumes[day] * DayPayout(g, us, day, now) <= g.totalTokenSupply[day] * DayVolume(g, us, day)
    ensures DayPayout(g, us, day, now) >= 0
    ensures g.solVolumes[day] == 0 ==> DayPayout(g, us, day, now) == 0
  {
    if us == [] {
    } else {
      var rest, u := us[..|us| - 1], us[|us| - 1];
      DayScaled(g, rest, day, now);
      if DayOf(g, u.lastUpdateTimestamp) == day {
        ExtraBound(g, u, now, day);
        Distribute(g.solVolumes[day], DayPayout(g, rest, day, now), Extra(g, u, now));
        Distribute(g.totalTokenSupply[day], DayVolume(g, rest, day), u.currentSolVolume);
      }
    }
  }

  lemma {:induction false} Distribute(a: int, b: int, c: int)
    ensures a * (b + c) == a * b + a * c
  {
  }

  /** The share is the greatest whole part: no more whole tokens fit the user's part of
      the day's supply. A day without volume has no shares. */
  lemma {:induction false} ShareIsGreatest(g: GlobalVolume, u: UserVolume, day: nat, share: int)
    requires Amounts(g, [u]) && day < |g.solVolumes| && day < |g.totalTokenSupply|
    ensures DayShare(g, u, day) == Some(share) <==>
      if g.solVolumes[day] == 0 then share == 0
      else
        share * g.solVolumes[day] <= u.currentSolVolume * g.totalTokenSupply[day] < (share + 1) * g.solVolumes[day]
  {
    assert u in [u];
    var volume := g.solVolumes[day];
    if volume > 0 {
      Product(u.currentSolVolume, g.totalTokenSupply[day]);
      WholePart(u.currentSolVolume * g.totalTokenSupply[day], volume, share);
    }
  }

  lemma {:induction false} WholePart(a: nat, d: nat, q: int)
    requires d > 0
    ensures a / d == q <==> q * d <= a < (q + 1) * d
  {
    Quotients.QuotientAtLeast(a, d, q);
    Quotients.QuotientAtLeast(a, d, q + 1);
  }

  /** Days are numbered from the start of the program, each `secondsInADay` long. */
  lemma {:induction false} DayIs(g: GlobalVolume, t: int, day: int)
    requires g.secondsInADay > 0 && g.startTime <= t
    ensures DayOf(g, t) == day
      <==> g.startTime + day * g.secondsInADay <= t < g.startTime + (day + 1) * g.secondsInADay
  {
    WholePart(t - g.startTime, g.secondsInADay, day);
  }

  /** How many of the users were last active on a day. */
  function ActiveOn(g: GlobalVolume, us: seq<UserVolume>, day: int): nat
    requires g.secondsInADay != 0
  {
    if us == [] then 0
    else ActiveOn(g, us[..|us| - 1], day) + if DayOf(g, us[|us| - 1].lastUpdateTimestamp) == day then 1 else 0
  }

  /** The users last active on the day all have their share counted now. */
  predicate AllCounted(g: GlobalVolume, us: seq<UserVolume>, day: int, now: int)
    requires g.secondsInADay != 0
  {
    forall u :: u in us && DayOf(g, u.lastUpdateTimestamp) == day ==> LastDayClosed(g, u, now) || LastDayOpen(g, u, now)
  }

  lemma {:induction false} CountedExtra(g: GlobalVolume, u: UserVolume, day: nat, now: int)
    requires Answers(g, u, now) && Amounts(g, [u]) && g.secondsInADay != 0
    requires DayOf(g, u.lastUpdateTimestamp) == day && (LastDayClosed(g, u, now) || LastDayOpen(g, u, now))
    requires day < |g.totalTokenSupply| && day < |g.solVolumes| && g.solVolumes[day] > 0
    ensures g.totalTokenSupply[day] * u.currentSolVolume - g.solVolumes[day] * Extra(g, u, now) <= g.solVolumes[day] - 1
  {
    CountedOnce(g, u, now);
    ShareIsGreatest(g, u, day, Extra(g, u, now));
    Distribute(g.solVolumes[day], Extra(g, u, now), 1);
  }

  /** Nothing but rounding is lost over a day: once everyone's share is counted, what was
      credited falls short of the users' part of the supply by less than one token for
      each of them. */
  lemma {:induction false} OnlyRoundingLost(g: GlobalVolume, us: seq<UserVolume>, day: nat, now: int)
    requires g.secondsInADay != 0 && Amounts(g, us) && forall u :: u in us ==> Answers(g, u, now)
    requires day < |g.totalTokenSupply| && day < |g.solVolumes| && g.solVolumes[day] > 0
    requires AllCounted(g, us, day, now)
    ensures g.totalTokenSupply[day] * DayVolume(g, us, day) - g.solVolumes[day] * DayPayout(g, us, day, now)
         <= (g.solVolumes[day] - 1) * ActiveOn(g, us, day)
  {
    if us != [] {
      var rest, u := us[..|us| - 1], us[|us| - 1];
      OnlyRoundingLost(g, rest, day, now);
      if DayOf(g, u.lastUpdateTimestamp) == day {
        CountedExtra(g, u, day, now);
        Distribute(g.solVolumes[day], DayPayout(g, rest, day, now), Extra(g, u, now));
        Distribute(g.totalTokenSupply[day], DayVolume(g, rest, day), u.currentSolVolume);
        Distribute(g.solVolumes[day] - 1, ActiveOn(g, rest, day), 1);
      }
    }
  }

  /** Any number of users whose volumes for a day sum to at most the day's volume are
      together credited at most the day's supply. */
  lemma {:induction false} DayConserved(g: GlobalVolume, us: seq<UserVolume>, day: nat, now: int)
    requires g.secondsInADay != 0 && Amounts(g, us) && forall u :: u in us ==> Answers(g, u, now)
    requires day < |g.totalTokenSupply| && day < |g.solVolumes|
    requires DayVolume(g, us, day) <= g.solVolumes[day]
    ensures 0 <= DayPayout(g, us, day, now) <= g.totalTokenSupply[day]
  {
    DayScaled(g, us, day, now);
    var total, supply := g.solVolumes[day], g.totalTokenSupply[day];
    if total > 0 {
      Cancel(total, supply, DayPayout(g, us, day, now), DayVolume(g, us, day));
    }
  }

  lemma {:induction false} Cancel(total: nat, supply: nat, paid: int, volume: int)
    requires total > 0 && volume <= total && total * paid <= supply * volume
    ensures paid <= supply
  {
    assert supply * volume <= supply * total;
    assert total * (paid - supply) <= 0;
  }

  /** A day with no recorded volume pays nothing. */
  lemma {:induction false} UnrecordedDay(g: GlobalVolume, us: seq<UserVolume>, day: nat, now: int)
    requires g.secondsInADay != 0 && Amounts(g, us) && forall u :: u in us ==> Answers(g, u, now)
    requires day >= |g.solVolumes|
    ensures DayPayout(g, us, day, now) == 0
  {
    if us != [] {
      var u := us[|us| - 1];
      UnrecordedDay(g, us[..|us| - 1], day, now);
      if DayOf(g, u.lastUpdateTimestamp) == day {
        ExtraBound(g, u, now, day);
      }
    }
  }

  /** Each day's recorded volume covers the volumes of the users last active on it. */
  predicate VolumesCover(g: GlobalVolume, us: seq<UserVolume>)
    requires g.secondsInADay != 0
  {
    forall day :: 0 <= day < |g.solVolumes| ==> DayVolume(g, us, day) <= g.solVolumes[day]
  }

  /** Sum of the day payouts of days 0..n. */
  function DayPayouts(g: GlobalVolume, us: seq<UserVolume>, n: nat, now: int): int
    requires g.secondsInADay != 0 && forall u :: u in us ==> Answers(g, u, now)
  {
    if n == 0 then 0 else DayPayouts(g, us, n - 1, now) + DayPayout(g, us, n - 1, now)
  }

  lemma {:induction false} DayPayoutsSnoc(g: GlobalVolume, us: seq<UserVolume>, u: UserVolume, n: nat, now: int)
    requires g.secondsInADay != 0 && forall v :: v in us + [u] ==> Answers(g, v, now)
    requires forall v :: v in us ==> Answers(g, v, now)
    ensures DayPayouts(g, us + [u], n, now) ==
            DayPayouts(g, us, n, now) + if 0 <= DayOf(g, u.lastUpdateTimestamp) < n then Extra(g, u, now) else 0
    decreases n
  {
    if n > 0 {
      DayPayoutsSnoc(g, us, u, n - 1, now);
      assert (us + [u])[..|us|] == us;
    }
  }

  /** Every credit belongs to one day. */
  lemma {:induction false} PayoutByDay(g: GlobalVolume, us: seq<UserVolume>, now: int)
    requires g.secondsInADay != 0 && Amounts(g, us) && forall u :: u in us ==> Answers(g, u, now)
    ensures Payout(g, us, now) == DayPayouts(g, us, |g.totalTokenSupply|, now)
  {
    if us == [] {
      NoPayouts(g, |g.totalTokenSupply|, now);
    } else {
      var rest, u := us[..|us| - 1], us[|us| - 1];
      PayoutByDay(g, rest, now);
      assert rest + [u] == us;
      DayPayoutsSnoc(g, rest, u, |g.totalTokenSupply|, now);
      ExtraBound(g, u, now, DayOf(g, u.lastUpdateTimestamp));
    }
  }

  lemma {:induction false} NoPayouts(g: GlobalVolume, n: nat, now: int)
    requires g.secondsInADay != 0
    ensures DayPayouts(g, [], n, now) == 0
  {
    if n > 0 {
      NoPayouts(g, n - 1, now);
    }
  }

  /** At any instant, any number of users, each active on any day, are together
      credited at most the whole supply, when each day's recorded volume covers the
      volumes of that day's users. */
  lemma {:induction false} SupplyConserved(g: GlobalVolume, us: seq<UserVolume>, now: int)
    requires Amounts(g, us) && forall u :: u in us ==> Answers(g, u, now)
    requires g.secondsInADay != 0 ==> VolumesCover(g, us)
    ensures Payout(g, us, now) <= Sum(g.totalTokenSupply)
  {
    if g.secondsInADay == 0 {
      NothingWithoutDays(g, us, now);
      SumNonNegative(g.totalTokenSupply);
    } else {
      PayoutByDay(g, us, now);
      DaysBounded(g, us, |g.totalTokenSupply|, now);
      assert g.totalTokenSupply[..|g.totalTokenSupply|] == g.totalTokenSupply;
    }
  }

  lemma {:induction false} DaysBounded(g: GlobalVolume, us: seq<UserVolume>, n: nat, now: int)
    requires g.secondsInADay != 0 && Amounts(g, us) && forall u :: u in us ==> Answers(g, u, now)
    requires n <= |g.totalTokenSupply| && VolumesCover(g, us)
    ensures DayPayouts(g, us, n, now) <= Sum(g.totalTokenSupply[..n])
    decreases n
  {
    if n > 0 {
      DaysBounded(g, us, n - 1, now);
      if n - 1 < |g.solVolumes| {
        DayConserved(g, us, n - 1, now);
      } else {
        UnrecordedDay(g, us, n - 1, now);
      }
      assert g.totalTokenSupply[..n][..n - 1] == g.totalTokenSupply[..n - 1];
    }
  }

  lemma {:induction false} NothingWithoutDays(g: GlobalVolume, us: seq<UserVolume>, now: int)
    requires g.secondsInADay == 0 && forall u :: u in us ==> Answers(g, u, now)
    ensures Payout(g, us, now) == 0
  {
    if us != [] {
      NothingWithoutDays(g, us[..|us| - 1], now);
    }
  }

  lemma {:induction false} SumNonNegative(a: seq<int>)
    requires forall i :: 0 <= i < |a| ==> a[i] >= 0
    ensures Sum(a) >= 0
  {
    if a != [] {
      SumNonNegative(a[..|a| - 1]);
    }
  }
}
