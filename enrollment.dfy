/**
 * One enrolment of an external party in a schedule (`Enrollment`): where in
 * the schedule it stands (the current milestone), its status, its dates and
 * the append-only history of fulfilled milestones.
 *
 * A `LocalDate` is a day number; a Java reference that may be null is an
 * `Option`; the clock read `DateUtil.today()` is the parameter `today`.
 */
module ScheduleTracking {
  import opened Wrappers

  /** A `LocalDate`, as a number of days. */
  type Day = int

  /** A time of day (`org.motechproject.model.Time`). */
  datatype Time = Time(hour: int, minute: int)

  datatype EnrollmentStatus = Active | Completed | Defaulted | Unenrolled

  /** One entry of the fulfilment history: which milestone, fulfilled on which day. */
  datatype MilestoneFulfillment = MilestoneFulfillment(milestoneName: Option<string>, dateFulfilled: Day)

  class Enrollment {
    var enrollmentDate: Option<Day>
    var scheduleName: Option<string>
    var externalId: Option<string>
    var currentMilestoneName: Option<string>
    var referenceDate: Option<Day>
    var preferredAlertTime: Option<Time>
    var status: Option<EnrollmentStatus>
    var fulfillments: seq<MilestoneFulfillment>

    /** A new enrolment is active and has fulfilled nothing yet. */
    constructor (externalId: Option<string>, scheduleName: Option<string>, currentMilestoneName: Option<string>,
                 referenceDate: Option<Day>, enrollmentDate: Option<Day>, preferredAlertTime: Option<Time>)
      ensures this.externalId == externalId && this.scheduleName == scheduleName
      ensures this.currentMilestoneName == currentMilestoneName
      ensures this.referenceDate == referenceDate && this.enrollmentDate == enrollmentDate
      ensures this.preferredAlertTime == preferredAlertTime
      ensures status == Some(Active) && fulfillments == []
      ensures IsActive() && !IsCompleted() && !IsDefaulted()
      ensures LastFulfilledDate() == None
    {
      this.externalId := externalId;
      this.scheduleName := scheduleName;
      this.currentMilestoneName := currentMilestoneName;
      this.enrollmentDate := enrollmentDate;
      this.referenceDate := referenceDate;
      this.preferredAlertTime := preferredAlertTime;
      this.status := Some(Active);
      this.fulfillments := [];
    }

    /** The day the most recent fulfilment happened; null when nothing has been fulfilled. */
    function LastFulfilledDate(): (d: Option<Day>)
      reads this
      ensures d.None? <==> fulfillments == []
      ensures d.Some? ==> d.value == fulfillments[|fulfillments| - 1].dateFulfilled
    {
      if fulfillments == [] then None else Some(fulfillments[|fulfillments| - 1].dateFulfilled)
    }

    /** `status.equals(Active)`; a null status makes the call fail. */
    predicate IsActive()
      reads this
      requires status.Some?
    {
      status.value == Active
    }

    predicate IsCompleted()
      reads this
      requires status.Some?
    {
      status.value == Completed
    }

    predicate IsDefaulted()
      reads this
      requires status.Some?
    {
      status.value == Defaulted
    }

    method SetCurrentMilestoneName(currentMilestoneName: Option<string>)
      modifies this`currentMilestoneName
      ensures this.currentMilestoneName == currentMilestoneName
    {
      this.currentMilestoneName := currentMilestoneName;
    }

    method SetStatus(status: Option<EnrollmentStatus>)
      modifies this`status
      ensures this.status == status
    {
      this.status := status;
    }

    /**
     * Overwrites the enrolment date, current milestone, reference date and
     * preferred alert time with those of `enrollment` and returns this
     * enrolment; the schedule, external id, status and history are kept.
     */
    method CopyFrom(enrollment: Enrollment) returns (r: Enrollment)
      modifies this`enrollmentDate, this`currentMilestoneName, this`referenceDate, this`preferredAlertTime
      ensures r == this
      ensures enrollmentDate == old(enrollment.enrollmentDate)
      ensures currentMilestoneName == old(enrollment.currentMilestoneName)
      ensures referenceDate == old(enrollment.referenceDate)
      ensures preferredAlertTime == old(enrollment.preferredAlertTime)
      ensures scheduleName == old(scheduleName) && externalId == old(externalId)
      ensures status == old(status) && fulfillments == old(fulfillments)
    {
      enrollmentDate := enrollment.enrollmentDate;
      currentMilestoneName := enrollment.currentMilestoneName;
      referenceDate := enrollment.referenceDate;
      preferredAlertTime := enrollment.preferredAlertTime;
      r := this;
    }

    /**
     * The day from which the current milestone's windows are counted: the
     * reference date for the schedule's first milestone or for a schedule
     * with absolute windows; otherwise the enrolment date if nothing has been
     * fulfilled, else the day of the last fulfilment. The current milestone
     * name must not be null.
     */
    function CurrentMilestoneStartDate(firstMilestoneNameFromSchedule: Option<string>, scheduleIsBasedOnAbsoluteWindows: bool)
      : (d: Option<Day>)
      reads this
      requires currentMilestoneName.Some?
      ensures (currentMilestoneName == firstMilestoneNameFromSchedule || scheduleIsBasedOnAbsoluteWindows) ==>
                d == referenceDate
      ensures (currentMilestoneName != firstMilestoneNameFromSchedule && !scheduleIsBasedOnAbsoluteWindows && fulfillments == []) ==>
                d == enrollmentDate
      ensures (currentMilestoneName != firstMilestoneNameFromSchedule && !scheduleIsBasedOnAbsoluteWindows && fulfillments != []) ==>
                d == Some(fulfillments[|fulfillments| - 1].dateFulfilled)
    {
      if currentMilestoneName == firstMilestoneNameFromSchedule || scheduleIsBasedOnAbsoluteWindows then referenceDate
      else if fulfillments == [] then enrollmentDate
      else LastFulfilledDate()
    }

    /**
     * Records that the current milestone was fulfilled on `fulfillmentDate`,
     * or on `today` when no date is given: one entry is appended to the
     * history and nothing else changes.
     */
    method FulfillCurrentMilestone(fulfillmentDate: Option<Day>, today: Day)
      modifies this`fulfillments
      ensures var dateFulfilled := if fulfillmentDate.Some? then fulfillmentDate.value else today;
              fulfillments == old(fulfillments) + [MilestoneFulfillment(currentMilestoneName, dateFulfilled)]
      ensures |fulfillments| == |old(fulfillments)| + 1 && fulfillments[..|old(fulfillments)|] == old(fulfillments)
      ensures fulfillmentDate.Some? ==> LastFulfilledDate() == fulfillmentDate
      ensures fulfillmentDate.None? ==> LastFulfilledDate() == Some(today)
      ensures status == old(status) && currentMilestoneName == old(currentMilestoneName)
      ensures forall first :: currentMilestoneName.Some? && currentMilestoneName != first ==>
                CurrentMilestoneStartDate(first, false) == Some(if fulfillmentDate.Some? then fulfillmentDate.value else today)
    {
      var dateFulfilled := if fulfillmentDate.Some? then fulfillmentDate.value else today;
      fulfillments := fulfillments + [MilestoneFulfillment(currentMilestoneName, dateFulfilled)];
    }
  }

  /** At most one of `isActive`, `isCompleted` and `isDefaulted` holds. */
  lemma StatusPredicatesExclusive(e: Enrollment)
    requires e.status.Some?
    ensures !(e.IsActive() && e.IsCompleted())
    ensures !(e.IsActive() && e.IsDefaulted())
    ensures !(e.IsCompleted() && e.IsDefaulted())
  {
  }

  /**
   * Once a milestone other than the first has been fulfilled on a schedule
   * with relative windows, the next milestone starts on the day of that
   * fulfilment.
   */
  lemma StartDateIsLastFulfilledDate(e: Enrollment, firstMilestoneNameFromSchedule: Option<string>)
    requires e.currentMilestoneName.Some? && e.currentMilestoneName != firstMilestoneNameFromSchedule
    requires e.fulfillments != []
    ensures e.CurrentMilestoneStartDate(firstMilestoneNameFromSchedule, false) == e.LastFulfilledDate()
  {
  }
}
