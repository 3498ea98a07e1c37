/**
 * The body of a Worker's cron trigger update: each schedule wrapped in its
 * own `{cron: schedule}` array, in order.
 */
module Cron {
  import opened Php
  import opened Keyed

  function CronEntry(schedule: Value): Value {
    Map([("cron", schedule)])
  }

  /** `update`: one entry per schedule, each the schedule alone and unaltered. */
  method UpdateBody(schedules: seq<Value>) returns (values: seq<Value>)
    ensures |values| == |schedules|
    ensures forall i :: 0 <= i < |schedules| ==> values[i] == CronEntry(schedules[i])
  {
    values := [];
    for i := 0 to |schedules|
      invariant |values| == i
      invariant forall j :: 0 <= j < i ==> values[j] == CronEntry(schedules[j])
    {
      values := values + [CronEntry(schedules[i])];
    }
  }

  /** The schedules read back from a body: the `cron` value of each entry. */
  function Schedules(values: seq<Value>): (schedules: seq<Value>)
    ensures |schedules| == |values|
  {
    seq(|values|, i requires 0 <= i < |values| => if values[i].Map? then Find(values[i].entries, "cron").GetOr(Null) else Null)
  }

  /** Reading the schedules back from a body `update` built gives the list that was wrapped. */
  lemma {:induction false} SchedulesRoundTrip(schedules: seq<Value>, values: seq<Value>)
    requires |values| == |schedules| && forall i :: 0 <= i < |schedules| ==> values[i] == CronEntry(schedules[i])
    ensures Schedules(values) == schedules
  {
    forall i | 0 <= i < |values|
      ensures Schedules(values)[i] == schedules[i]
    {
      assert values[i] == CronEntry(schedules[i]);
    }
  }
}
