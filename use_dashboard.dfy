/**
 * The change-detection hook: it hashes each config it is given, and when the hash differs
 * from the last adopted one it raises a regenerating flag that a timer later clears. Timers
 * are explicit: scheduling appends to a queue, and FireTimer runs the oldest one (all timers
 * have the same delay, so they expire in the order they were set).
 */
module UseDashboard {
  import opened ConfigContext

  /** A generated widget; its rendered component is not modelled. */
  datatype GeneratedWidget = GeneratedWidget(id: string, widgetType: string)

  /** A pending timeout callback: clear the flag and adopt a hash, or only clear the flag. */
  datatype Timer = AdoptHash(hash: ConfigHash) | ClearOnly

  class DashboardHook {
    var widgets: seq<GeneratedWidget>
    var isRegenerating: bool
    var prevConfigHash: ConfigHash
    var timers: seq<Timer>

    /** `widgets` is never set, and the flag is only up while a timer that will clear it is pending. */
    predicate Valid()
      reads this
    {
      widgets == [] && (isRegenerating ==> timers != [])
    }

    constructor ()
      ensures Valid()
      ensures !isRegenerating && prevConfigHash == NoHash && timers == []
    {
      widgets := [];
      isRegenerating := false;
      prevConfigHash := NoHash;
      timers := [];
    }

    /**
     * The effect on a new config. Computing the hash sorts the config's widgets in place. The
     * first hash is recorded without raising the flag; a different hash raises the flag and
     * schedules its adoption, leaving the recorded hash as it was; the same hash changes nothing.
     */
    method OnConfig(config: ConfigObject)
      requires Valid()
      modifies this, config.activeWidgets
      ensures Valid()
      ensures config.activeWidgets[..] == SortedWidgets(old(config.activeWidgets[..]))
      ensures widgets == old(widgets)
      ensures var current := HashOf(old(config.Value()));
        && (old(prevConfigHash) == NoHash ==>
              prevConfigHash == current && isRegenerating == old(isRegenerating) && timers == old(timers))
        && (old(prevConfigHash) != NoHash && current != old(prevConfigHash) ==>
              isRegenerating && prevConfigHash == old(prevConfigHash) && timers == old(timers) + [AdoptHash(current)])
        && (old(prevConfigHash) != NoHash && current == old(prevConfigHash) ==>
              isRegenerating == old(isRegenerating) && prevConfigHash == old(prevConfigHash) && timers == old(timers))
    {
      var currentHash := HashConfig(config);
      if currentHash != prevConfigHash && prevConfigHash != NoHash {
        isRegenerating := true;
        timers := timers + [AdoptHash(currentHash)];
      } else if prevConfigHash == NoHash {
        prevConfigHash := currentHash;
      }
    }

    /** regenerate: raise the flag whatever the hash, with a timer that only clears it. */
    method Regenerate()
      requires Valid()
      modifies this
      ensures Valid()
      ensures isRegenerating && timers == old(timers) + [ClearOnly]
      ensures prevConfigHash == old(prevConfigHash) && widgets == old(widgets)
    {
      isRegenerating := true;
      timers := timers + [ClearOnly];
    }

    /** The oldest timer expires: the flag drops, and an adopting timer records its hash. */
    method FireTimer()
      requires Valid() && timers != []
      modifies this
      ensures Valid()
      ensures !isRegenerating && timers == old(timers)[1..] && widgets == old(widgets)
      ensures old(timers)[0].AdoptHash? ==> prevConfigHash == old(timers)[0].hash
      ensures old(timers)[0].ClearOnly? ==> prevConfigHash == old(prevConfigHash)
    {
      var t := timers[0];
      timers := timers[1..];
      isRegenerating := false;
      if t.AdoptHash? {
        prevConfigHash := t.hash;
      }
    }
  }
}
