/**
 * The live monitoring view model (apps/ios/BreathTracker/BreathTracker/ViewModels/LiveBreathingViewModel.swift):
 * the breathing status shown for the current data, and the alarm state machine driven by data
 * updates and the dismiss and stop actions. The audio alarm and data services are observed
 * through the calls made to them; the Combine subscriptions are not modelled.
 */
module LiveBreathing {
  import opened Wrappers
  import opened BreathingModel

  datatype BreathingStatus = StatusNormal | StatusWarning | StatusCritical

  /** Constants.UI: the normal rate range is closed, 12...20. */
  const NormalRateLow: int := 12
  const NormalRateHigh: int := 20
  const LowSignalQualityThreshold: real := 0.7

  /**
   * breathingStatus. The source reads data.signalQuality, which BreathingData does not declare;
   * here the signal quality is an explicit input.
   */
  function Status(data: Option<BreathingData>, signalQuality: real): (s: BreathingStatus)
    ensures data.None? ==> s == StatusWarning
    ensures s == StatusCritical <==> data.Some? && IsBreathingStopped(data.value)
    ensures s == StatusNormal <==>
      && data.Some? && !IsBreathingStopped(data.value)
      && NormalRateLow <= data.value.breathingRate <= NormalRateHigh
      && signalQuality >= LowSignalQualityThreshold
  {
    if data.None? then StatusWarning
    else if IsBreathingStopped(data.value) then StatusCritical
    else if !(NormalRateLow <= data.value.breathingRate <= NormalRateHigh) then StatusWarning
    else if signalQuality < LowSignalQualityThreshold then StatusWarning
    else StatusNormal
  }

  /** A call made to the audio alarm service. */
  datatype AlarmCall = PlayCall | StopCall

  /** A call made to the breathing data service. */
  datatype MonitorCall = StartMonitoringCall | StopMonitoringCall

  datatype ViewState = ViewState(currentData: Option<BreathingData>, isAlertActive: bool, isAlarmPlaying: bool, alarmDismissed: bool)

  /** A step of the state machine: the new state and the alarm calls it made. */
  datatype Step = Step(state: ViewState, calls: seq<AlarmCall>)

  const InitialState: ViewState := ViewState(None, false, false, false)

  /** playAlarm: nothing while already playing. */
  function PlayStep(s: ViewState): (r: Step)
    ensures r.state.isAlarmPlaying
    ensures r.state.(isAlarmPlaying := s.isAlarmPlaying) == s
    ensures r.calls == if s.isAlarmPlaying then [] else [PlayCall]
  {
    if s.isAlarmPlaying then Step(s, []) else Step(s.(isAlarmPlaying := true), [PlayCall])
  }

  /** stopAlarm: always calls the service and clears the flag. */
  function StopStep(s: ViewState): (r: Step)
    ensures !r.state.isAlarmPlaying && r.calls == [StopCall]
    ensures r.state.(isAlarmPlaying := s.isAlarmPlaying) == s
  {
    Step(s.(isAlarmPlaying := false), [StopCall])
  }

  function Stopped(data: Option<BreathingData>): bool {
    data.Some? && IsBreathingStopped(data.value)
  }

  /** handleDataUpdate */
  function UpdateStep(s: ViewState, data: Option<BreathingData>): (r: Step)
    ensures r.state.currentData == data
    ensures data.None? ==> r == Step(s.(currentData := None), [])
    ensures |r.calls| <= 1
    ensures r.calls == [StopCall] <==> data.Some? && !IsBreathingStopped(data.value) && Stopped(s.currentData)
    ensures data.Some? && IsBreathingStopped(data.value) ==> r.state.isAlertActive
  {
    var s1 := s.(currentData := data);
    if data.None? then Step(s1, [])
    else if IsBreathingStopped(data.value) then
      var s2 := s1.(isAlertActive := true);
      if !s2.alarmDismissed then PlayStep(s2) else Step(s2, [])
    else if Stopped(s.currentData) then
      StopStep(s1.(isAlertActive := false, alarmDismissed := false))
    else Step(s1, [])
  }

  /** dismissAlarm */
  function DismissStep(s: ViewState): (r: Step)
    ensures r.state.alarmDismissed && !r.state.isAlarmPlaying && r.calls == [StopCall]
    ensures r.state.isAlertActive == s.isAlertActive && r.state.currentData == s.currentData
  {
    StopStep(s.(alarmDismissed := true))
  }

  /** A stopped update raises the alert; the alarm starts iff it was neither dismissed nor already playing. */
  lemma StoppedUpdate(s: ViewState, data: BreathingData)
    requires IsBreathingStopped(data)
    ensures var r := UpdateStep(s, Some(data));
      && r.state.isAlertActive
      && r.state.alarmDismissed == s.alarmDismissed
      && (r.calls == [PlayCall] <==> !s.alarmDismissed && !s.isAlarmPlaying)
      && (r.calls == [] <==> s.alarmDismissed || s.isAlarmPlaying)
      && r.state.isAlarmPlaying == (s.isAlarmPlaying || !s.alarmDismissed)
  {
  }

  /** Asking to play while playing does nothing. */
  lemma PlayIdempotent(s: ViewState)
    ensures PlayStep(PlayStep(s).state) == Step(PlayStep(s).state, [])
  {
  }

  /** A normal update directly after a stopped one clears the alert, the dismissal and the alarm. */
  lemma RecoveryClearsAlarm(s: ViewState, data: BreathingData)
    requires Stopped(s.currentData) && !IsBreathingStopped(data)
    ensures var r := UpdateStep(s, Some(data));
      r.state == ViewState(Some(data), false, false, false) && r.calls == [StopCall]
  {
  }

  /** A normal update after a normal one, or after no data, changes no flag and calls nothing. */
  lemma NormalAfterNormalChangesNothing(s: ViewState, data: BreathingData)
    requires !Stopped(s.currentData) && !IsBreathingStopped(data)
    ensures UpdateStep(s, Some(data)) == Step(s.(currentData := Some(data)), [])
  {
  }

  /** A nil update clears the data and leaves every flag as it was. */
  lemma NilUpdateKeepsFlags(s: ViewState)
    ensures UpdateStep(s, None) == Step(s.(currentData := None), [])
  {
  }

  /** So apnea, then nil, then normal data leaves the alert active: the recovery is never seen. */
  lemma NilHidesRecovery(s: ViewState, apnea: BreathingData, normal: BreathingData)
    requires IsBreathingStopped(apnea) && !IsBreathingStopped(normal)
    ensures var s1 := UpdateStep(s, Some(apnea)).state;
      var s2 := UpdateStep(s1, None).state;
      var s3 := UpdateStep(s2, Some(normal)).state;
      s3.isAlertActive && s3.isAlarmPlaying == s1.isAlarmPlaying
  {
  }

  /** Dismissing keeps the alert but silences the alarm, and further stopped updates do not restart it. */
  lemma DismissHoldsUntilRecovery(s: ViewState, apnea: BreathingData)
    requires IsBreathingStopped(apnea)
    ensures var d := DismissStep(s);
      && d.state.isAlertActive == s.isAlertActive && d.state.alarmDismissed && !d.state.isAlarmPlaying
      && UpdateStep(d.state, Some(apnea)).calls == []
      && !UpdateStep(d.state, Some(apnea)).state.isAlarmPlaying
      && UpdateStep(d.state, Some(apnea)).state.alarmDismissed
  {
  }

  /** The alarm only plays while an alert is active. */
  ghost predicate Consistent(s: ViewState) {
    s.isAlarmPlaying ==> s.isAlertActive
  }

  lemma ConsistentPreserved(s: ViewState, data: Option<BreathingData>)
    requires Consistent(s)
    ensures Consistent(UpdateStep(s, data).state)
    ensures Consistent(DismissStep(s).state)
    ensures Consistent(StopStep(s).state)
  {
  }

  lemma InitialConsistent()
    ensures Consistent(InitialState)
  {
  }

  class LiveBreathingViewModel {
    var currentData: Option<BreathingData>
    var isAlertActive: bool
    var isAlarmPlaying: bool
    var alarmDismissed: bool
    /** The calls made to the audio alarm service, oldest first. */
    var alarmCalls: seq<AlarmCall>
    /** The calls made to the breathing data service, oldest first. */
    var monitorCalls: seq<MonitorCall>

    function State(): ViewState
      reads this
    {
      ViewState(currentData, isAlertActive, isAlarmPlaying, alarmDismissed)
    }

    ghost predicate Valid()
      reads this
    {
      Consistent(State())
    }

    constructor ()
      ensures Valid() && State() == InitialState && alarmCalls == [] && monitorCalls == []
    {
      currentData, isAlertActive, isAlarmPlaying, alarmDismissed := None, false, false, false;
      alarmCalls, monitorCalls := [], [];
    }

    /** breathingStatus for the current data. */
    function BreathingStatus(signalQuality: real): (s: BreathingStatus)
      reads this
      ensures s == Status(currentData, signalQuality)
    {
      Status(currentData, signalQuality)
    }

    method PlayAlarm()
      requires isAlertActive
      modifies this
      ensures Valid()
      ensures State() == PlayStep(old(State())).state && alarmCalls == old(alarmCalls) + PlayStep(old(State())).calls
      ensures monitorCalls == old(monitorCalls)
    {
      if isAlarmPlaying { return; }
      alarmCalls := alarmCalls + [PlayCall];
      isAlarmPlaying := true;
    }

    method StopAlarm()
      modifies this
      ensures Valid()
      ensures State() == StopStep(old(State())).state && alarmCalls == old(alarmCalls) + [StopCall]
      ensures monitorCalls == old(monitorCalls)
    {
      alarmCalls := alarmCalls + [StopCall];
      isAlarmPlaying := false;
    }

    method HandleDataUpdate(data: Option<BreathingData>)
      requires Valid()
      modifies this
      ensures Valid()
      ensures State() == UpdateStep(old(State()), data).state
      ensures alarmCalls == old(alarmCalls) + UpdateStep(old(State()), data).calls
      ensures monitorCalls == old(monitorCalls)
    {
      var previousData := currentData;
      currentData := data;
      if data.None? { return; }
      if IsBreathingStopped(data.value) {
        isAlertActive := true;
        if !alarmDismissed {
          PlayAlarm();
        }
      } else {
        if previousData.Some? && IsBreathingStopped(previousData.value) {
          isAlertActive := false;
          alarmDismissed := false;
          StopAlarm();
        }
      }
    }

    method DismissAlarm()
      requires Valid()
      modifies this
      ensures Valid()
      ensures State() == DismissStep(old(State())).state && alarmCalls == old(alarmCalls) + [StopCall]
      ensures monitorCalls == old(monitorCalls)
    {
      alarmDismissed := true;
      StopAlarm();
    }

    method StartMonitoring()
      modifies this
      ensures State() == old(State()) && alarmCalls == old(alarmCalls)
      ensures monitorCalls == old(monitorCalls) + [StartMonitoringCall]
    {
      monitorCalls := monitorCalls + [StartMonitoringCall];
    }

    /** stopMonitoring: stop the data service, then the alarm, so the alarm is never left playing. */
    method StopMonitoring()
      requires Valid()
      modifies this
      ensures Valid()
      ensures !isAlarmPlaying
      ensures State() == StopStep(old(State())).state && alarmCalls == old(alarmCalls) + [StopCall]
      ensures monitorCalls == old(monitorCalls) + [StopMonitoringCall]
    {
      monitorCalls := monitorCalls + [StopMonitoringCall];
      StopAlarm();
    }
  }
}
