/**
 Feed identifiers of one intersection arm: `<username>/feeds/<direction>.<signal>`,
 built once at boot from the stored service user name and direction label,
 and used both as publish targets and as subscription topics.
 */
module Feeds {

  datatype Signal = Traffic | Priority | Pedestrian | Timer

  function Suffix(s: Signal): string {
    match s
    case Traffic => ".traffic"
    case Priority => ".priority"
    case Pedestrian => ".pedestrian"
    case Timer => ".timer"
  }

  /** The last character of a signal's suffix; no two signals share one. */
  function LastChar(s: Signal): char {
    Suffix(s)[|Suffix(s)| - 1]
  }

  /** The directory part every feed of one arm shares. */
  function FeedPrefix(username: string, direction: string): string {
    username + "/feeds/" + direction
  }

  /** The identifier of one feed of one arm. */
  function FeedName(username: string, direction: string, s: Signal): (name: string)
    ensures |name| > |username| && name[..|username|] == username
    ensures name[|name| - 1] == LastChar(s)
    ensures name == FeedPrefix(username, direction) + Suffix(s)
  {
    username + "/feeds/" + direction + Suffix(s)
  }

  /** A feed identifier determines its signal and its arm's prefix. */
  lemma FeedNameInjective(u1: string, d1: string, s1: Signal, u2: string, d2: string, s2: Signal)
    requires FeedName(u1, d1, s1) == FeedName(u2, d2, s2)
    ensures s1 == s2
    ensures FeedPrefix(u1, d1) == FeedPrefix(u2, d2)
  {
    var n := FeedName(u1, d1, s1);
    assert LastChar(s1) == n[|n| - 1] == LastChar(s2);
    var p1, p2 := FeedPrefix(u1, d1), FeedPrefix(u2, d2);
    assert |p1| == |n| - |Suffix(s1)| == |p2|;
    assert p1 == n[..|p1|] == p2;
  }

  /** The four feeds of one arm (`feed1` … `feed4`). */
  datatype FeedSet = FeedSet(traffic: string, priority: string, pedestrian: string, timer: string) {
    predicate Distinct() {
      traffic != priority && traffic != pedestrian && traffic != timer
      && priority != pedestrian && priority != timer && pedestrian != timer
    }
  }

  /** Feed names as rebuilt at boot; the four are pairwise distinct. */
  function BuildFeeds(username: string, direction: string): (f: FeedSet)
    ensures f.traffic == FeedName(username, direction, Traffic)
    ensures f.priority == FeedName(username, direction, Priority)
    ensures f.pedestrian == FeedName(username, direction, Pedestrian)
    ensures f.timer == FeedName(username, direction, Timer)
    ensures f.Distinct()
  {
    FeedSet(FeedName(username, direction, Traffic), FeedName(username, direction, Priority),
            FeedName(username, direction, Pedestrian), FeedName(username, direction, Timer))
  }

  /** The topic the MQTT callback compares against is the timer feed. */
  lemma TimerTopicIsTimerFeed(username: string, direction: string)
    ensures username + "/feeds/" + direction + ".timer" == BuildFeeds(username, direction).timer
    ensures forall s :: s != Timer ==>
      username + "/feeds/" + direction + ".timer" != FeedName(username, direction, s)
  {
  }
}
