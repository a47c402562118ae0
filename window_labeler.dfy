/** The window labeler: the ground-truth class of a classifier window, computed from a
    session's timing dictionary (common/itbn_cnn_model_validator.py:87-154). The class is
    0 for silence, 1 when a robot event overlaps the window, 2 when a human event does. */
module WindowLabeler {
  import opened IntervalRelations

  /** Rows of a label array (BATCH_SIZE); the validator runs one window at a time. */
  const BatchSize: nat := 1
  /** Columns of a label array (AUD_CLASSES, OPT_CLASSES): silence, robot, human. */
  const AudClasses: nat := 3
  const OptClasses: nat := 3

  /** Names whose overlap makes an audio window class 1, then class 2, in the order checked. */
  const AudRobotEvents: seq<string> := ["command", "prompt", "reward", "abort", "noise_0", "noise_1"]
  const AudHumanEvents: seq<string> := ["audio_0", "audio_1"]
  /** The same for video windows. */
  const OptRobotEvents: seq<string> := ["command", "prompt", "noise_0", "noise_1"]
  const OptHumanEvents: seq<string> := ["gesture_0", "gesture_1"]

  /** The timing dictionary holds an end time for every listed event whose start time it
      holds; otherwise the lookup of the end time in overlaps raises KeyError. */
  predicate TimingComplete(td: map<string, int>, names: seq<string>)
  {
    forall n :: n in names ==> (n + "_s" in td ==> n + "_e" in td)
  }

  /** overlaps: the event has a recorded start and a reduced-mode relation to the window. */
  function Overlaps(sTime: int, eTime: int, td: map<string, int>, eventName: string): (r: bool)
    requires eventName + "_s" in td ==> eventName + "_e" in td
    ensures eventName + "_s" !in td ==> !r
    ensures r <==> eventName + "_s" in td && td[eventName + "_s"] < eTime && sTime < td[eventName + "_e"]
  {
    var sLabel := eventName + "_s";
    var eLabel := eventName + "_e";
    sLabel in td && WindowRelation(sTime, eTime, td[sLabel], td[eLabel]) != ""
  }

  /** The span of window number frameNum: it starts at stride * frameNum and its end is
      clipped to the sequence length. */
  function WindowSpan(frameSize: nat, stride: nat, frameNum: nat, sequenceLen: int): (int, int)
  {
    var sFrame := stride * frameNum;
    (sFrame, if sFrame + frameSize > sequenceLen then sequenceLen else sFrame + frameSize)
  }

  predicate AnyOverlap(span: (int, int), td: map<string, int>, names: seq<string>)
    requires TimingComplete(td, names)
  {
    exists i :: 0 <= i < |names| && Overlaps(span.0, span.1, td, names[i])
  }

  /** The class a window deserves: human events take priority over robot events, and a
      window that no listed event overlaps is silence. */
  function GroundTruthClass(span: (int, int), td: map<string, int>, robot: seq<string>, human: seq<string>): (c: int)
    requires TimingComplete(td, robot) && TimingComplete(td, human)
    ensures 0 <= c <= 2
  {
    if AnyOverlap(span, td, human) then 2 else if AnyOverlap(span, td, robot) then 1 else 0
  }

  /** The one-hot label array for a class: a 1 at column c of row 0, zeros elsewhere. */
  ghost predicate OneHot(a: array2<real>, c: int)
    reads a
  {
    forall r, k :: 0 <= r < a.Length0 && 0 <= k < a.Length1 ==> a[r, k] == if r == 0 && k == c then 1.0 else 0.0
  }

  /** label_data_aud: later overlap checks overwrite earlier ones, so the audio human
      events audio_0 and audio_1 win over every robot event. */
  method LabelDataAud(frameSize: nat, stride: nat, frameNum: nat, sequenceLen: int, td: map<string, int>)
    returns (labelData: array2<real>)
    requires TimingComplete(td, AudRobotEvents) && TimingComplete(td, AudHumanEvents)
    ensures fresh(labelData)
    ensures labelData.Length0 == BatchSize && labelData.Length1 == AudClasses
    ensures OneHot(labelData, GroundTruthClass(WindowSpan(frameSize, stride, frameNum, sequenceLen), td, AudRobotEvents, AudHumanEvents))
  {
    var audLabel := 0;

    var sFrame := stride * frameNum;
    var eFrame := sFrame + frameSize;

    if eFrame > sequenceLen {
      eFrame := sequenceLen;
    }

    if Overlaps(sFrame, eFrame, td, "command") {
      audLabel := 1;
    }
    if Overlaps(sFrame, eFrame, td, "prompt") {
      audLabel := 1;
    }
    if Overlaps(sFrame, eFrame, td, "reward") {
      audLabel := 1;
    }
    if Overlaps(sFrame, eFrame, td, "abort") {
      audLabel := 1;
    }
    if Overlaps(sFrame, eFrame, td, "noise_0") {
      audLabel := 1;
    }
    if Overlaps(sFrame, eFrame, td, "noise_1") {
      audLabel := 1;
    }
    if Overlaps(sFrame, eFrame, td, "audio_0") {
      audLabel := 2;
    }
    if Overlaps(sFrame, eFrame, td, "audio_1") {
      audLabel := 2;
    }

    AudClassByNames(sFrame, eFrame, td);
    labelData := OneHotLabel(AudClasses, audLabel);
  }

  /** label_data_opt: the same for video windows, where gesture_0 and gesture_1 are the
      human events and command, prompt, noise_0 and noise_1 the robot events. */
  method LabelDataOpt(frameSize: nat, stride: nat, frameNum: nat, sequenceLen: int, td: map<string, int>)
    returns (labelData: array2<real>)
    requires TimingComplete(td, OptRobotEvents) && TimingComplete(td, OptHumanEvents)
    ensures fresh(labelData)
    ensures labelData.Length0 == BatchSize && labelData.Length1 == OptClasses
    ensures OneHot(labelData, GroundTruthClass(WindowSpan(frameSize, stride, frameNum, sequenceLen), td, OptRobotEvents, OptHumanEvents))
  {
    var optLabel := 0;

    var sFrame := stride * frameNum;
    var eFrame := sFrame + frameSize;

    if eFrame > sequenceLen {
      eFrame := sequenceLen;
    }

    if Overlaps(sFrame, eFrame, td, "command") {
      optLabel := 1;
    }
    if Overlaps(sFrame, eFrame, td, "prompt") {
      optLabel := 1;
    }
    if Overlaps(sFrame, eFrame, td, "noise_0") {
      optLabel := 1;
    }
    if Overlaps(sFrame, eFrame, td, "noise_1") {
      optLabel := 1;
    }
    if Overlaps(sFrame, eFrame, td, "gesture_0") {
      optLabel := 2;
    }
    if Overlaps(sFrame, eFrame, td, "gesture_1") {
      optLabel := 2;
    }

    OptClassByNames(sFrame, eFrame, td);
    labelData := OneHotLabel(OptClasses, optLabel);
  }

  /** np.zeros((BATCH_SIZE, classes)) with a 1 written at column c of row 0. */
  method OneHotLabel(classes: nat, c: nat) returns (labelData: array2<real>)
    requires c < classes
    ensures fresh(labelData)
    ensures labelData.Length0 == BatchSize && labelData.Length1 == classes
    ensures OneHot(labelData, c)
  {
    labelData := new real[BatchSize, classes]((_, _) => 0.0);
    labelData[0, c] := 1.0;
  }

  /** The audio ground-truth class spelt out event by event. */
  lemma AudClassByNames(sTime: int, eTime: int, td: map<string, int>)
    requires TimingComplete(td, AudRobotEvents) && TimingComplete(td, AudHumanEvents)
    ensures GroundTruthClass((sTime, eTime), td, AudRobotEvents, AudHumanEvents) ==
      if Overlaps(sTime, eTime, td, "audio_0") || Overlaps(sTime, eTime, td, "audio_1") then 2
      else if Overlaps(sTime, eTime, td, "command") || Overlaps(sTime, eTime, td, "prompt")
           || Overlaps(sTime, eTime, td, "reward") || Overlaps(sTime, eTime, td, "abort")
           || Overlaps(sTime, eTime, td, "noise_0") || Overlaps(sTime, eTime, td, "noise_1") then 1
      else 0
  {
    assert AudHumanEvents[0] == "audio_0" && AudHumanEvents[1] == "audio_1";
    assert AudRobotEvents[0] == "command" && AudRobotEvents[1] == "prompt" && AudRobotEvents[2] == "reward";
    assert AudRobotEvents[3] == "abort" && AudRobotEvents[4] == "noise_0" && AudRobotEvents[5] == "noise_1";
  }

  /** The video ground-truth class spelt out event by event. */
  lemma OptClassByNames(sTime: int, eTime: int, td: map<string, int>)
    requires TimingComplete(td, OptRobotEvents) && TimingComplete(td, OptHumanEvents)
    ensures GroundTruthClass((sTime, eTime), td, OptRobotEvents, OptHumanEvents) ==
      if Overlaps(sTime, eTime, td, "gesture_0") || Overlaps(sTime, eTime, td, "gesture_1") then 2
      else if Overlaps(sTime, eTime, td, "command") || Overlaps(sTime, eTime, td, "prompt")
           || Overlaps(sTime, eTime, td, "noise_0") || Overlaps(sTime, eTime, td, "noise_1") then 1
      else 0
  {
    assert OptHumanEvents[0] == "gesture_0" && OptHumanEvents[1] == "gesture_1";
    assert OptRobotEvents[0] == "command" && OptRobotEvents[1] == "prompt";
    assert OptRobotEvents[2] == "noise_0" && OptRobotEvents[3] == "noise_1";
  }

  /** np.argmax over a one-row label array: the first column holding the largest value. */
  method ArgMax(a: array2<real>) returns (k: nat)
    requires a.Length0 == BatchSize && a.Length1 > 0
    ensures k < a.Length1
    ensures forall j :: 0 <= j < a.Length1 ==> a[0, j] <= a[0, k]
    ensures forall j :: 0 <= j < k ==> a[0, j] < a[0, k]
  {
    k := 0;
    var j := 1;
    while j < a.Length1
      invariant 1 <= j <= a.Length1 && k < j
      invariant forall m :: 0 <= m < j ==> a[0, m] <= a[0, k]
      invariant forall m :: 0 <= m < k ==> a[0, m] < a[0, k]
    {
      if a[0, j] > a[0, k] {
        k := j;
      }
      j := j + 1;
    }
  }

  /** The class recovered from a one-hot label array by argmax is the class it encodes. */
  lemma {:induction false} ArgMaxOfOneHot(a: array2<real>, c: int, k: nat)
    requires a.Length0 == BatchSize && 0 <= c < a.Length1 && OneHot(a, c)
    requires k < a.Length1 && forall j :: 0 <= j < a.Length1 ==> a[0, j] <= a[0, k]
    ensures k == c
  {
    assert a[0, c] == 1.0 && a[0, c] <= a[0, k];
  }
}
