/**
 * The mobile home screen (`MobileHome`): four network statistics that an
 * interval timer replaces with fresh draws, and three quick actions that
 * ask the shell for another screen.
 */
module MobileHome {
  import MobileApp

  datatype NetworkStats = NetworkStats(
    activeNodes: int,
    globalSentience: int,
    userSessions: int,
    ethicalScore: int)

  const InitialStats := NetworkStats(247, 73, 1247, 95)

  /** The band each statistic is drawn in. */
  predicate InBands(s: NetworkStats) {
    && 200 <= s.activeNodes <= 249
    && 70 <= s.globalSentience <= 89
    && 1000 <= s.userSessions <= 1499
    && 90 <= s.ethicalScore <= 99
  }

  /** The four draws of one refresh, in the order the callback makes them. */
  datatype StatDraws = StatDraws(activeNodes: nat, globalSentience: nat, userSessions: nat, ethicalScore: nat)

  predicate DrawsInRange(d: StatDraws) {
    d.activeNodes < 50 && d.globalSentience < 20 && d.userSessions < 500 && d.ethicalScore < 10
  }

  /** The statistics after a refresh: built from the draws alone, each in its band. */
  function Refreshed(d: StatDraws): (s: NetworkStats)
    requires DrawsInRange(d)
    ensures InBands(s)
  {
    NetworkStats(d.activeNodes + 200, d.globalSentience + 70, d.userSessions + 1000, d.ethicalScore + 90)
  }

  /** The draws behind a reading: every in-band reading is some refresh's result. */
  function DrawsFor(s: NetworkStats): (d: StatDraws)
    requires InBands(s)
    ensures DrawsInRange(d) && Refreshed(d) == s
  {
    StatDraws(s.activeNodes - 200, s.globalSentience - 70, s.userSessions - 1000, s.ethicalScore - 90)
  }

  /** Different draws give different readings. */
  lemma RefreshedInjective(d: StatDraws, e: StatDraws)
    requires DrawsInRange(d) && DrawsInRange(e)
    ensures Refreshed(d) == Refreshed(e) ==> d == e
  {
  }

  /** The initial reading already lies in the bands. */
  lemma InitialInBands()
    ensures InBands(InitialStats)
  {
  }

  /** The quick actions' targets, in the order they are listed. */
  const QuickActionTargets: seq<MobileApp.MobileScreen> := [MobileApp.Chat, MobileApp.Dashboard, MobileApp.Profile]

  /** The home screen's state. */
  class Home {
    var networkStats: NetworkStats

    constructor ()
      ensures networkStats == InitialStats && InBands(networkStats)
    {
      networkStats := InitialStats;
    }

    /** The interval callback: all four statistics replaced, none read. */
    method Refresh(d: StatDraws)
      requires DrawsInRange(d)
      modifies this
      ensures networkStats == Refreshed(d)
      ensures InBands(networkStats)
    {
      networkStats := Refreshed(d);
    }
  }
}
