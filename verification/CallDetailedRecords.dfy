/**
 The call record: the identity of a call, the three time points of its life and its final status.
 Time points are whole milliseconds; the longest wait is configured in whole seconds.
 */
module CallDetailedRecords {
  import opened Options

  datatype CallStatus = Ok | Overload | Timeout | AlreadyInQueue

  /** The value of a record object: what every getter of the class reads. */
  datatype Cdr = Cdr(
    id: nat,
    phone: string,
    maxWait: nat,
    arrival: Option<int>,
    timeoutPoint: Option<int>,
    start: Option<int>,
    complete: Option<int>,
    status: Option<CallStatus>,
    operatorId: Option<nat>)
  {
    predicate WasArrived() { arrival.Some? }

    predicate WasFinished() { status.Some? }

    predicate WasServiced() { status == Some(Ok) }

    predicate IsTimeout(now: int) { WasArrived() && timeoutPoint.Some? && now >= timeoutPoint.value }

    /** The condition asserted on entry to both `StartService` and `CompleteService`. */
    predicate Live() { WasArrived() && !WasFinished() }

    function Arrive(now: int): Cdr {
      this.(arrival := Some(now), timeoutPoint := Some(now + 1000 * maxWait))
    }

    function Start(operator: nat, now: int): Cdr {
      this.(operatorId := Some(operator), start := Some(now))
    }

    function Complete(reason: CallStatus, now: int): Cdr {
      this.(status := Some(reason), complete := Some(now))
    }

    /** What every object reached through the three mutators satisfies. */
    predicate Valid() {
      && (WasFinished() <==> complete.Some?)
      && (WasArrived() <==> timeoutPoint.Some?)
      && (start.Some? || WasFinished() ==> WasArrived())
      && (WasArrived() ==> timeoutPoint.value == arrival.value + 1000 * maxWait)
    }

    function ServiceTime(): Option<int>
      requires Valid()
      requires WasServiced() ==> start.Some?
    {
      if WasServiced() then Some(complete.value - start.value) else None
    }

    function WaitTime(): Option<int>
      requires Valid()
    {
      if start.Some? then Some(start.value - arrival.value)
      else if WasFinished() then Some(complete.value - arrival.value)
      else None
    }

    function TotalTime(): Option<int>
      requires Valid()
      requires WasServiced() ==> start.Some?
    {
      if WasFinished() then
        if WasServiced() then Some(WaitTime().value + ServiceTime().value)
        else WaitTime()
      else None
    }
  }

  function NewRecord(id: nat, phone: string, maxWait: nat): Cdr {
    Cdr(id, phone, maxWait, None, None, None, None, None, None)
  }

  /**
   The total time of a finished call is the time it spent in the system, with one exception: a call
   that was handed to an operator and then finished with a refusal loses the time since the hand-over.
   */
  lemma TotalTimeIsTimeInSystemIff(r: Cdr)
    requires r.Valid() && r.WasFinished()
    requires r.WasServiced() ==> r.start.Some?
    ensures r.TotalTime() == Some(r.complete.value - r.arrival.value)
       <==> r.WasServiced() || r.start.None? || r.start == r.complete
  {
    if r.WasServiced() {
      assert r.TotalTime() == Some(r.complete.value - r.arrival.value);
    }
  }

  class CallDetailedRecord {
    const id: nat
    const callerPhoneNumber: string
    const maxWait: nat
    var arrivalTime: Option<int>
    var timeoutPoint: Option<int>
    var startServiceTime: Option<int>
    var completeServiceTime: Option<int>
    var status: Option<CallStatus>
    var operatorId: Option<nat>
    // How often the completion callback of this call has run.
    var notifications: nat

    function Value(): Cdr
      reads this
    {
      Cdr(id, callerPhoneNumber, maxWait, arrivalTime, timeoutPoint,
          startServiceTime, completeServiceTime, status, operatorId)
    }

    /** The callback has run once if the call is finished and never otherwise. */
    ghost predicate Valid()
      reads this
    {
      Value().Valid() && notifications == (if status.Some? then 1 else 0)
    }

    constructor (id: nat, phone: string, maxWait: nat)
      ensures Valid() && Value() == NewRecord(id, phone, maxWait)
    {
      this.id, this.callerPhoneNumber, this.maxWait := id, phone, maxWait;
      arrivalTime, timeoutPoint, startServiceTime := None, None, None;
      completeServiceTime, status, operatorId := None, None, None;
      notifications := 0;
    }

    method SetArrivalTime(now: int)
      requires Valid() && !Value().WasArrived()
      modifies this
      ensures Valid() && Value() == old(Value()).Arrive(now)
    {
      arrivalTime := Some(now);
      timeoutPoint := Some(now + 1000 * maxWait);
    }

    method StartService(operator: nat, now: int)
      requires Valid() && Value().Live()
      modifies this
      ensures Valid() && Value() == old(Value()).Start(operator, now)
      ensures notifications == old(notifications)
    {
      operatorId := Some(operator);
      startServiceTime := Some(now);
    }

    method CompleteService(reason: CallStatus, now: int)
      requires Valid() && Value().Live()
      modifies this
      ensures Valid() && Value() == old(Value()).Complete(reason, now)
      ensures notifications == 1
    {
      status := Some(reason);
      completeServiceTime := Some(now);
      notifications := notifications + 1;
    }
  }
}
