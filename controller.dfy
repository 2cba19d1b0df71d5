/**
 The controller of one intersection arm: a vehicle counter, a pedestrian
 counter and the four feed mirrors (traffic, priority, pedestrian, timer),
 the local detection events, the threshold/notify rule run when the timer
 mirror reads "5", and the MQTT callback that refreshes the timer mirror.
 Every `post_Setup(feed, value)` becomes one entry of the publish log.
 */
module Controller {
  import opened DecimalText
  import opened Feeds

  /** One outbound `post_Setup(feed, value)` call. */
  datatype Publish = Publish(feed: string, value: string)

  /** One MQTT message handed to `callback`. */
  datatype Inbound = Inbound(topic: string, payload: string)

  datatype Option<T> = None | Some(value: T)

  /** `vehicleCount` at program start. */
  const InitialVehicleCount: nat := 7

  /** The timer text that makes `loop()` run the controller. */
  const ExpiryText: string := "5"

  /**
   The publishes of `controlTrafficLight()` for one snapshot of the mirrors,
   in order: the pedestrian flag goes to the priority feed (`feed2`), the
   priority flag to the pedestrian feed (`feed3`), and the vehicle count to
   the traffic feed when the traffic mirror reads above 1.
   */
  function ControlPublishes(f: FeedSet, vehicleCount: nat, traffic: string, priority: string,
                            pedestrian: string): (r: seq<Publish>)
    ensures |r| == (if ToInt(pedestrian) == 1 then 1 else 0) + (if ToInt(priority) == 1 then 1 else 0)
                   + (if ToInt(traffic) > 1 then 1 else 0)
    ensures ToInt(pedestrian) == 1 ==> r[0] == Publish(f.priority, "1")
    ensures ToInt(traffic) > 1 ==> r[|r| - 1] == Publish(f.traffic, NatToString(vehicleCount))
    ensures ToInt(priority) == 1 ==> Publish(f.pedestrian, "1") in r
    ensures f.Distinct() ==>
      && (Publish(f.priority, "1") in r <==> ToInt(pedestrian) == 1)
      && (Publish(f.pedestrian, "1") in r <==> ToInt(priority) == 1)
      && ((exists v :: Publish(f.traffic, v) in r) <==> ToInt(traffic) > 1)
  {
    (if ToInt(pedestrian) == 1 then [Publish(f.priority, "1")] else [])
    + (if ToInt(priority) == 1 then [Publish(f.pedestrian, "1")] else [])
    + (if ToInt(traffic) > 1 then [Publish(f.traffic, NatToString(vehicleCount))] else [])
  }

  /** From the start-up state, where every mirror is empty, the rule publishes nothing. */
  lemma InitialControlSilent(f: FeedSet)
    ensures ControlPublishes(f, InitialVehicleCount, "", "", "") == []
  {
    ToIntOfFlags();
  }

  /**
   What the mirrors can hold, given that only this controller writes them:
   the traffic mirror is empty until the first vehicle and from then on the
   rendering of the (already raised) vehicle count; the priority mirror is
   empty or "1"; the pedestrian mirror is empty or the rendering of the
   pedestrian count before its last raise.
   */
  predicate MirrorInvariant(vehicleCount: nat, pedestrianCount: nat, traffic: string, priority: string,
                            pedestrian: string)
  {
    && vehicleCount >= InitialVehicleCount
    && (if vehicleCount == InitialVehicleCount then traffic == "" else traffic == NatToString(vehicleCount))
    && (priority == "" || priority == "1")
    && (if pedestrianCount == 0 then pedestrian == "" else pedestrian == NatToString(pedestrianCount - 1))
  }

  /**
   Read through `toInt`, the mirrors' flags mean: pedestrian flag set iff
   exactly two pedestrians have been detected (the mirror holds the count
   before the raise); priority flag set iff a priority vehicle was seen;
   traffic above 1 iff any vehicle was detected.
   */
  lemma MirrorFlags(vehicleCount: nat, pedestrianCount: nat, traffic: string, priority: string,
                    pedestrian: string)
    requires MirrorInvariant(vehicleCount, pedestrianCount, traffic, priority, pedestrian)
    ensures ToInt(pedestrian) == 1 <==> pedestrianCount == 2
    ensures ToInt(priority) == 1 <==> priority == "1"
    ensures ToInt(traffic) > 1 <==> vehicleCount > InitialVehicleCount
  {
    ToIntOfFlags();
    if pedestrianCount > 0 {
      ToIntOfNatToString(pedestrianCount - 1);
    }
    if vehicleCount > InitialVehicleCount {
      ToIntOfNatToString(vehicleCount);
    }
  }

  /** A vehicle detection keeps the invariant: the traffic mirror becomes the raised count's rendering. */
  lemma VehicleKeepsInvariant(vehicleCount: nat, pedestrianCount: nat, traffic: string, priority: string,
                              pedestrian: string, isPriority: bool)
    requires MirrorInvariant(vehicleCount, pedestrianCount, traffic, priority, pedestrian)
    ensures MirrorInvariant(vehicleCount + 1, pedestrianCount, NatToString(vehicleCount + 1),
                            if isPriority then "1" else priority, pedestrian)
    ensures ToInt(NatToString(vehicleCount + 1)) == vehicleCount + 1
  {
    ToIntOfNatToString(vehicleCount + 1);
  }

  /** Under the invariant, the rule's output stated in terms of the counters and the priority mirror. */
  lemma ControlUnderInvariant(f: FeedSet, vehicleCount: nat, pedestrianCount: nat, traffic: string,
                              priority: string, pedestrian: string)
    requires MirrorInvariant(vehicleCount, pedestrianCount, traffic, priority, pedestrian)
    ensures ControlPublishes(f, vehicleCount, traffic, priority, pedestrian)
      == (if pedestrianCount == 2 then [Publish(f.priority, "1")] else [])
         + (if priority == "1" then [Publish(f.pedestrian, "1")] else [])
         + (if vehicleCount > InitialVehicleCount then [Publish(f.traffic, NatToString(vehicleCount))] else [])
  {
    MirrorFlags(vehicleCount, pedestrianCount, traffic, priority, pedestrian);
  }

  /** The loop trigger compares text: "05" and " 5" read as 5 but do not trigger. */
  lemma ExpiryIsTextual()
    ensures ToInt("05") == 5 && "05" != ExpiryText
    ensures ToInt(" 5") == 5 && " 5" != ExpiryText
    ensures ToInt(ExpiryText) == 5
  {
    assert LeadingDigits("05") == "05";
    assert DigitsValue("05") == 5 by { DigitsValueAppend("0", '5'); }
    assert SkipSpace(" 5") == "5";
    assert NatToString(5) == "5";
    ToIntOfNatToString(5);
  }

  /** The program's controller state for the one arm it serves. */
  class ArmController {
    const username: string
    const direction: string
    /** `feed1` … `feed4`, rebuilt at boot. */
    const feeds: FeedSet

    var vehicleCount: nat
    var pedestrianCount: nat
    var traffic: string
    var priority: string
    var pedestrian: string
    var timer: string
    /** Every `post_Setup` call made so far, oldest first. */
    var published: seq<Publish>

    ghost predicate Valid()
      reads this`vehicleCount, this`pedestrianCount, this`traffic, this`priority, this`pedestrian
    {
      && feeds == BuildFeeds(username, direction)
      && MirrorInvariant(vehicleCount, pedestrianCount, traffic, priority, pedestrian)
    }

    /** Start-up: feeds built from the stored user name and direction, counters at 7 and 0. */
    constructor (username: string, direction: string)
      ensures Valid()
      ensures this.username == username && this.direction == direction
      ensures vehicleCount == InitialVehicleCount && pedestrianCount == 0
      ensures traffic == "" && priority == "" && pedestrian == "" && timer == ""
      ensures published == []
    {
      this.username := username;
      this.direction := direction;
      feeds := BuildFeeds(username, direction);
      vehicleCount := InitialVehicleCount;
      pedestrianCount := 0;
      traffic, priority, pedestrian, timer := "", "", "", "";
      published := [];
    }

    /** `post_Setup(feed, value)`, kept as the event it records. */
    method Post(feed: string, value: string)
      modifies this`published
      ensures published == old(published) + [Publish(feed, value)]
    {
      published := published + [Publish(feed, value)];
    }

    /** The state half of `detectVehicle(isPriority)`: count, traffic mirror and priority mirror. */
    method RecordVehicle(isPriority: bool)
      requires Valid()
      modifies this`vehicleCount, this`traffic, this`priority
      ensures Valid()
      ensures vehicleCount == old(vehicleCount) + 1
      ensures traffic == NatToString(vehicleCount) && ToInt(traffic) == vehicleCount
      ensures priority == if isPriority then "1" else old(priority)
    {
      VehicleKeepsInvariant(vehicleCount, pedestrianCount, traffic, priority, pedestrian, isPriority);
      vehicleCount, traffic := vehicleCount + 1, NatToString(vehicleCount + 1);
      if isPriority {
        priority := "1";
      }
    }

    /** `detectVehicle(isPriority)`. */
    method DetectVehicle(isPriority: bool)
      requires Valid()
      modifies this`vehicleCount, this`traffic, this`priority, this`published
      ensures Valid()
      ensures vehicleCount == old(vehicleCount) + 1
      ensures traffic == NatToString(vehicleCount) && ToInt(traffic) == vehicleCount
      ensures priority == if isPriority then "1" else old(priority)
      ensures pedestrianCount == old(pedestrianCount) && pedestrian == old(pedestrian)
      ensures timer == old(timer)
      ensures published == old(published)
                           + (if isPriority then [Publish(feeds.priority, "1")] else [])
                           + [Publish(feeds.traffic, traffic)]
    {
      RecordVehicle(isPriority);
      if isPriority {
        Post(feeds.priority, "1");
      }
      Post(feeds.traffic, traffic);
    }

    /** `detectPedestrian()`: the mirror takes the count before it is raised. */
    method DetectPedestrian()
      requires Valid()
      modifies this
      ensures Valid()
      ensures pedestrian == NatToString(old(pedestrianCount))
      ensures pedestrianCount == old(pedestrianCount) + 1
      ensures vehicleCount == old(vehicleCount) && traffic == old(traffic) && priority == old(priority)
      ensures timer == old(timer) && published == old(published)
    {
      pedestrian := NatToString(pedestrianCount);
      pedestrianCount := pedestrianCount + 1;
    }

    /** `controlTrafficLight()`: publishes only; no counter or mirror changes. */
    method ControlTrafficLight()
      modifies this`published
      ensures published == old(published) + ControlPublishes(feeds, vehicleCount, traffic, priority, pedestrian)
    {
      if ToInt(pedestrian) == 1 {
        Post(feeds.priority, "1");
      }
      if ToInt(priority) == 1 {
        Post(feeds.pedestrian, "1");
      }
      if ToInt(traffic) > 1 {
        Post(feeds.traffic, NatToString(vehicleCount));
      }
    }

    /** `callback(topic, payload)`: only a message on the timer feed changes anything. */
    method Callback(topic: string, payload: string)
      requires Valid()
      modifies this`timer
      ensures Valid()
      ensures timer == if topic == feeds.timer then payload else old(timer)
    {
      TimerTopicIsTimerFeed(username, direction);
      if topic == username + "/feeds/" + direction + ".timer" {
        timer := payload;
      }
    }

    /**
     One pass of `loop()`: `client.loop()` delivers at most one message,
     then the controller runs iff the timer mirror is exactly "5".
     */
    method Loop(delivered: Option<Inbound>)
      requires Valid()
      modifies this`timer, this`published
      ensures Valid()
      ensures timer == if delivered.Some? && delivered.value.topic == feeds.timer
                       then delivered.value.payload else old(timer)
      ensures published == old(published)
                           + if timer == ExpiryText
                             then ControlPublishes(feeds, vehicleCount, traffic, priority, pedestrian)
                             else []
    {
      if delivered.Some? {
        Callback(delivered.value.topic, delivered.value.payload);
      }
      if timer == ExpiryText {
        ControlTrafficLight();
      }
    }
  }
}
