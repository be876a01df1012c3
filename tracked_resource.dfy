// igl::ITrackedResource (src/igl/ITrackedResource.h): a resource that is told
// about an IResourceTracker once, announces itself to it, and says goodbye
// in its destructor. Trackers are ids; the tracker's callbacks are recorded
// in order.

module TrackedResource {
  import opened IglCore

  datatype Notification = DidCreate(tracker: nat) | WillDelete(tracker: nat)

  class ITrackedResource {
    var resourceTracker: Option<nat>
    /** The calls made on trackers, in order. */
    var notifications: seq<Notification>
    var destroyed: bool

    /**
     * The tracker callbacks agree with the stored tracker: a live resource
     * has announced itself to its tracker, and to no one else.
     */
    ghost predicate Valid()
      reads this
    {
      && (!destroyed ==> notifications == (if resourceTracker.Some? then [DidCreate(resourceTracker.value)] else []))
      && (destroyed ==> notifications == (if resourceTracker.Some?
                                           then [DidCreate(resourceTracker.value), WillDelete(resourceTracker.value)]
                                           else []))
    }

    constructor ()
      ensures Valid() && resourceTracker == None && notifications == [] && !destroyed
    {
      resourceTracker := None;
      notifications := [];
      destroyed := false;
    }

    /**
     * initResourceTracker: takes effect only while no tracker is stored, and
     * calls didCreate only when the stored tracker is non-null.
     */
    method InitResourceTracker(tracker: Option<nat>)
      requires Valid() && !destroyed
      modifies this
      ensures Valid() && !destroyed
      ensures old(resourceTracker).Some? ==> resourceTracker == old(resourceTracker) && notifications == old(notifications)
      ensures old(resourceTracker).None? ==> resourceTracker == tracker
      ensures old(resourceTracker).None? && tracker.Some? ==> notifications == old(notifications) + [DidCreate(tracker.value)]
      ensures tracker.None? ==> notifications == old(notifications)
    {
      if resourceTracker.None? {
        resourceTracker := tracker;
        if resourceTracker.Some? {
          notifications := notifications + [DidCreate(resourceTracker.value)];
        }
      }
    }

    /** ~ITrackedResource: willDelete is called iff a tracker is stored. */
    method Destroy()
      requires Valid() && !destroyed
      modifies this
      ensures Valid() && destroyed && resourceTracker == old(resourceTracker)
      ensures old(resourceTracker).Some? ==> notifications == old(notifications) + [WillDelete(old(resourceTracker).value)]
      ensures old(resourceTracker).None? ==> notifications == old(notifications)
    {
      if resourceTracker.Some? {
        notifications := notifications + [WillDelete(resourceTracker.value)];
      }
      destroyed := true;
    }
  }
}
